# WebCraft core in Dafny

WebCraft is a collaborative code editor with project and task management. It has an Express/Socket.IO server and a React client. This project models the parts of it that decide things:

- the socket server's **session registry** (`userSocketMap`) and its room routing of events;
- the REST handlers for **tasks, projects, invitations, one-time passwords and accounts**, over an in-memory database;
- the 12-hour **chat time formatter**;
- on the client:
  - the task dialog's tag and assignee editing and its form rules;
  - the project dialog's key generation;
  - the Kanban board's filtering, grouping, counts and drag-and-drop;
  - the home page's project filter;
  - the task card's display rules;
  - the HTTP error interceptor;
  - the local user store.

Each source file has its own module:

| module | models |
|---|---|
| `Presence` | server/src/server.ts. A `Registry` class holds `users: seq<User>`, and each socket handler is a method. An emission is a `Delivery`: a target (one socket, or a room without the sender) and a message. A dropped event yields no deliveries. |
| `Store` | The documents (schemas under server/Models), and a `Database` class holding the collections: users as a sequence in natural order, the rest as maps keyed by id. |
| `TaskRoutes`, `ProjectRoutes`, `UserRoutes`, `OtpRoutes`, `AuthRoutes` | server/Routes/task.ts, project.ts, user.ts, otp.ts, auth.ts. Each handler is a pure function from the collections and the request to the reply and the new collections. A method performs it on a `Database`. |
| `ChatFormat` | `formatDate` of server/Routes/chat.ts. |
| `TaskModal`, `ProjectModal`, `Kanban`, `HomePage`, `TaskCard` | The client components of the same names. |
| `UserState` | client/src/utils/UserState.ts. A `UserStore` class holds the one localStorage slot. |
| `ServerApi` | The response interceptor of client/src/api/serverapi.ts. |
| `Wrappers`, `Seqs`, `Text` | Shared helpers: `Option`, order-preserving `Filter` and subsequences, and ASCII `toLowerCase`/`toUpperCase`/`trim`/`includes`/`String(n)`. |

Replies follow the handlers' three exits:
- `Ok(status, body)` is a normal response. The body is the document or message the response carries. The JSON wrapper around it, such as `{ message, task }` or `{ Status, Message }`, is not modelled.
- `Err(status, message)` is `next(throwError(status, message))`.
- `Unhandled` is an exception passed to `next(err)` unchanged.

A request field that JavaScript treats as falsy (absent or `""`) is `None` or `Some("")` of an `Option<string>`. `Present` tests for a non-empty value.

A disconnect removes more than the departing session. The filter at server/src/server.ts:103-105 drops every entry of the socket *and* every entry, in any room, that has the departing username. `Presence.Evict` does the same, and `Presence.DisconnectRemovesNamesakeElsewhere` shows a namesake in another room being removed.

## Model

| member | source | states |
|---|---|---|
| Presence.UsersInRoom | server/src/server.ts:42-44 | The room's entries, exactly those of `m` with that project id, in registry order (a subsequence). |
| Presence.FindBySocket | server/src/server.ts:59-66 | None exactly when no entry has the socket; otherwise the first entry that has it. |
| Presence.ProjectOf | server/src/server.ts:47-57 | A room exactly when the socket's first entry exists and has a non-empty project id, and then it is the project id of that first entry. |
| Presence.NameTakenMeans | server/src/server.ts:72-75 | The duplicate check holds exactly when some entry of the room has the username. |
| Presence.Evict | server/src/server.ts:103-105 | Keeps exactly the entries whose socket differs and whose username differs, in order. |
| Presence.WithStatus | server/src/server.ts:194-216 | Same length. Only `status` changes, and it becomes `st` exactly on the entries of the given socket. |
| Presence.WithTyping | server/src/server.ts:238-258 | Same length. Only typing and cursor change, and only on the sender's entries. The cursor is replaced only when a position is given. |
| Presence.Registry.Join | server/src/server.ts:70-94 | A taken name leaves the registry unchanged and answers USERNAME_EXISTS. Otherwise it appends one ONLINE entry (cursor 0, not typing, no file), broadcasts it to the room without the sender, and accepts with the room's entries. It keeps names unique per room. |
| Presence.Registry.Disconnecting | server/src/server.ts:96-113 | An unknown socket changes nothing and emits nothing. Otherwise the registry becomes `Evict` of it, and the room gets the departed user and then the remaining entries. |
| Presence.Registry.SetStatus | server/src/server.ts:194-216 | The registry becomes `WithStatus`. The status event goes to the target's room without the sender, or nowhere when the room is unresolved. |
| Presence.Registry.TypingStart | server/src/server.ts:238-249 | Typing is set and the cursor replaced on the sender's entries. The updated user is broadcast, or nothing when the sender has no entry. |
| Presence.Registry.TypingPause | server/src/server.ts:251-275 | Typing is cleared with the cursor kept. The broadcast happens only when the sender has an entry. |
| Presence.Registry.Relay | server/src/server.ts:126-191 | Dropped exactly when the room is unresolved. Otherwise there is one delivery of the unchanged payload to the sender's room, and it never reaches the sender. |
| Presence.Registry.RequestDrawing | server/src/server.ts:277-283 | Dropped exactly when the room is unresolved. Otherwise the room is asked on the sender's behalf. |
| Presence.SyncFileStructure | server/src/server.ts:115-124 | One delivery, reaching exactly the named socket for every registry. |
| Presence.SyncDrawing | server/src/server.ts:285-289 | One delivery to the named socket, which never includes the sender. |
| Presence.BroadcastExcludesSender | server/src/server.ts:91 | A broadcast target never reaches its sender. |
| Presence.JoinKeepsNamesUnique | server/src/server.ts:72-89 | Appending after a passed duplicate check keeps usernames unique within each room. |
| Presence.SubseqKeepsNamesUnique | server/src/server.ts:103-105 | Removing entries keeps usernames unique within each room. |
| Presence.JoinAcceptedList | server/src/server.ts:92-93 | The accepted member list is the earlier room entries followed by the newcomer. |
| Presence.RejectedJoinSeesCollision | server/src/server.ts:72-78 | A rejected join means some entry of the room already has that name. |
| Presence.DisconnectDropsLaterEvents | server/src/server.ts:103-105 | After the filter no entry has the socket or the username. The socket's room no longer resolves, so later relayed events are dropped. |
| Presence.DisconnectRemovesNamesakeElsewhere | server/src/server.ts:103-105 | A same-named entry of another socket in another room is removed too. |
| Presence.UpdatesKeepNamesUnique | server/src/server.ts:195-200 | Status and typing updates keep usernames unique per room. |
| Presence.StatusLeavesOthers | server/src/server.ts:195-200 | An entry of another socket is unchanged by a status update. |
| Store.FindFirst | server/Routes/auth.ts:17-19 | None exactly when nothing matches; otherwise the first matching index. |
| Store.IndexOfUser | server/Routes/user.ts:44 | None exactly when no user has the id; otherwise the first user with it. |
| Store.AddToSet | server/Routes/project.ts:20-24 | Membership is the old set plus `x`. The length grows by one exactly when `x` was absent, and the old list is a prefix. |
| Store.AddToSetIdempotent | server/Routes/project.ts:22 | Adding the same id twice equals adding it once. |
| Store.AddToSetKeepsDistinct | server/Routes/project.ts:22 | A list without duplicates stays without duplicates. |
| TaskRoutes.Save | server/Routes/task.ts:26-81 | 400 exactly for a create without title or project. A create stores the supplied fields under the new id (500 if the id is taken). An update gives 400 for an invalid id and 404 for an unknown one, and otherwise stores the merge. Nothing changes on failure. |
| TaskRoutes.PatchStatus | server/Routes/task.ts:128-146 | 400 without `_id` or status, 400 for an invalid id, and 404 "Task not found" for a valid unknown id. Success exactly for a known id, and then only `status` changes. |
| TaskRoutes.Delete | server/Routes/task.ts:158-168 | 400 for an invalid id and 404 for an unknown one. Otherwise exactly that task is removed and the others are kept. |
| TaskRoutes.SaveTask | server/Routes/task.ts:9-87 | The reply and the tasks are those of `Save`, and the other collections are unchanged. |
| TaskRoutes.PatchTaskStatus | server/Routes/task.ts:124-150 | The reply and the tasks are those of `PatchStatus`, and the rest is unchanged. |
| TaskRoutes.DeleteTask | server/Routes/task.ts:154-173 | The reply and the tasks are those of `Delete`, and the rest is unchanged. |
| TaskRoutes.MergeOverridesOnlySupplied | server/Routes/task.ts:57-70 | Each supplied field takes the new value, and each omitted field keeps the stored one. |
| TaskRoutes.MergeNothingIsIdentity | server/Routes/task.ts:57-68 | An update with no fields leaves the task unchanged. |
| TaskRoutes.MergeIdempotent | server/Routes/task.ts:57-70 | Repeating an update changes nothing more. |
| TaskRoutes.MergeSequential | server/Routes/task.ts:57-70 | Two updates equal one update in which the later request's fields win. |
| TaskRoutes.PatchIsStatusOnlyUpdate | server/Routes/task.ts:136-140 | A status patch of a known task equals a `/save` update that supplies only the status. |
| ProjectRoutes.AddToCreator | server/Routes/project.ts:20-24 | Only the creator's `projects` change, by add-to-set. |
| ProjectRoutes.Save | server/Routes/project.ts:11-38 | 400 when key, name or creator is missing, and nothing changes on failure. A create succeeds exactly for a valid creator id, an unused key and an unused new id; it then answers 201, stores the defaults and adds the id to the creator. An edit gives 400 for an invalid id and 404 for an unknown one, and otherwise replaces key, name, description and status only. |
| ProjectRoutes.ProgressPercent | server/Routes/project.ts:89 | 0 without tasks. Otherwise `r` is within one half of `100*done/total`, rounding half up, and it is at most 100 when done ≤ total. |
| ProjectRoutes.MemberCount | server/Routes/project.ts:90 | 0 for a project without an aggregated count, and the count otherwise. |
| ProjectRoutes.DoneWithinTasks | server/Routes/project.ts:83-87 | A project's done tasks are no more than its tasks. |
| ProjectRoutes.Entry | server/Routes/project.ts:81-96 | Progress is the rounded percentage of the project's done tasks among its tasks (ProgressPercent), so at most 100 and 0 without tasks. Member count is the aggregated count, 0 without one (MemberCount). |
| ProjectRoutes.List | server/Routes/project.ts:44-100 | 400 for a missing or invalid user id, and 404 exactly for an unknown user. Otherwise the entries are exactly the user's existing projects, each the Entry of that project: its rounded done percentage and its member count. |
| ProjectRoutes.DisjointSubsetsBound | server/Routes/project.ts:143-144 | Two disjoint subsets of a set are together no larger than it. |
| ProjectRoutes.Stats | server/Routes/project.ts:107-195 | 400 for a bad id, and zeros for a missing user or one without projects. Total counts the existing projects, done counts the completed ones and active the active ones, and done + active ≤ total. |
| ProjectRoutes.Delete | server/Routes/project.ts:225-244 | 400 for an invalid id and 404 for an unknown one. Otherwise exactly that project is removed, and users are never touched. |
| ProjectRoutes.SaveProject | server/Routes/project.ts:9-42 | Projects, users and reply are those of `Save`, and tasks and OTPs are unchanged. |
| ProjectRoutes.DeleteProject | server/Routes/project.ts:225-244 | Projects, users and reply are those of `Delete`, and the rest is unchanged. |
| ProjectRoutes.CreateAddsToCreatorOnce | server/Routes/project.ts:18-24 | After a create, the creator lists the new project, still without duplicates, with the old list as a prefix. |
| ProjectRoutes.EditKeepsCreatorAndAvatar | server/Routes/project.ts:29-33 | An edit never changes `createdBy` or `avatarUrl`. |
| ProjectRoutes.ProgressExtremes | server/Routes/project.ts:89 | No task done is 0%, and all tasks done is 100% (0 without tasks). |
| UserRoutes.Invite | server/Routes/user.ts:35-61 | 400 exactly for a missing or invalid id, before any lookup. 404 "User not found" exactly for an unknown user, and "Project not found" exactly for a known user and an unknown project. With both found, 200 "Already Member" when listed, and otherwise 200 "Added" with projectId appended. Users change only on "Added". |
| UserRoutes.InviteUser | server/Routes/user.ts:29-66 | The reply and the users are those of `Invite`, and the rest is unchanged. |
| UserRoutes.InviteIsAddToSet | server/Routes/user.ts:50-57 | An accepted invite updates the user's list exactly as `AddToSet`. |
| UserRoutes.InviteIdempotent | server/Routes/user.ts:50-61 | A second identical invite changes nothing and answers "User is Already Member". |
| OtpRoutes.Check | server/Routes/otp.ts:43-53 | Not found exactly without a record. Used exactly for a used record. Expired exactly when unused and now > createdOn + 10 min. Valid exactly when unused, not expired and the code equal. |
| OtpRoutes.Validate | server/Routes/otp.ts:41-65 | Every failure is a 400 with its message and leaves the records unchanged. Success marks only that record used. |
| OtpRoutes.Code | server/Routes/otp.ts:8 | The code is in 1000..9999. |
| OtpRoutes.Send | server/Routes/otp.ts:7-39 | The address's record becomes a fresh unused code created now, and the others are unchanged. The reply is 200, or 500 when the mail fails (the record is written anyway). |
| OtpRoutes.ValidateOtp | server/Routes/otp.ts:41-65 | The reply and the records are those of `Validate`, and the rest is unchanged. |
| OtpRoutes.SendOtp | server/Routes/otp.ts:7-39 | The reply and the records are those of `Send`, and the rest is unchanged. |
| OtpRoutes.SecondValidationFails | server/Routes/otp.ts:55-56 | After a success, any later validation of that address fails with "OTP already used". |
| OtpRoutes.ExpiryIsStrict | server/Routes/otp.ts:47-51 | Accepted at exactly ten minutes, expired one millisecond later. |
| OtpRoutes.SendRearms | server/Routes/otp.ts:11-20 | After a send, the new code validates within ten minutes whatever the old record was. |
| OtpRoutes.ValidateIsLocal | server/Routes/otp.ts:55-56 | Validation leaves every other address's record unchanged. |
| AuthRoutes.FindByNameOrEmail | server/Routes/auth.ts:17-19 | None exactly when no user has the name or the address. Otherwise the first user, in natural order, with one of them. |
| AuthRoutes.FindByEmail | server/Routes/auth.ts:68 | None exactly when no user has the address. Otherwise the first user with it. |
| AuthRoutes.Signup | server/Routes/auth.ts:11-56 | Success exactly when no user has the name or address, and then appends the user with `hash(password)` and replies with name, address and id only. Otherwise the first match decides "Email already exists" (same address) or "Username already exists", and users are unchanged. |
| AuthRoutes.Signin | server/Routes/auth.ts:58-93 | 400 when either field is missing. Success exactly when the address is known and the password matches. Every other case gives the same 401 "Invalid credentials!". |
| AuthRoutes.CheckUser | server/Routes/auth.ts:95-115 | 400 exactly when both fields are missing. Otherwise `exists` holds exactly when some user has the given name or address, with the matching message. |
| AuthRoutes.ValidateCredentials | server/Routes/auth.ts:117-140 | 400 exactly when both fields are missing. An unknown address gives valid:false "User not found". A known address with a password gives valid equal to the bcrypt match, with "Credentials are valid" or "Invalid password". A known address with no password throws. |
| AuthRoutes.SignupUser | server/Routes/auth.ts:30-38 | The reply and the users are those of `Signup`, and the rest is unchanged. |
| AuthRoutes.TakenEmailIsRefused | server/Routes/auth.ts:21-23 | A registered address can never sign up again, and the users stay unchanged. |
| AuthRoutes.SignupThenSignin | server/Routes/auth.ts:30-88 | After a successful signup, the same address and password sign in as the new user. |
| AuthRoutes.FailuresLookAlike | server/Routes/auth.ts:68-79 | An unknown address and a wrong password get the same reply. |
| ChatFormat.TwoDigits | server/Routes/chat.ts:53 | Exactly two digits, reading back as the minute. |
| ChatFormat.DisplayHour | server/Routes/chat.ts:59-60 | In 1..12: `h % 12`, with 0 shown as 12. |
| ChatFormat.FormatDate | server/Routes/chat.ts:48-66 | The shape `<h>:<mm> <AM\|PM>`: 7 or 8 characters, digits before the colon, two digits after it, and the meridiem at the end. The hour shown is 1..12 without a leading zero, so midnight reads 12. With FormatRoundTrip this fixes the text. |
| ChatFormat.FormatRoundTrip | server/Routes/chat.ts:63 | The text reads back as the original hour and minute, so no two times format alike. |
| ChatFormat.HourCases | server/Routes/chat.ts:56-60 | 0 → 12 AM, 12 → 12 PM, 1..11 keep their value with AM, 13..23 become h−12 with PM. |
| ChatFormat.Examples | server/Routes/chat.ts:48-66 | "12:05 AM", "12:00 PM", "11:59 PM". |
| Text.Trim | client/src/modal/TaskModal.tsx:135 | The slice of the text between its leading and its trailing white space: empty exactly for all-white-space text, and otherwise without white space at either end. |
| Text.Includes | client/src/pages/HomePage.tsx:70 | True exactly when the needle occurs at some position. |
| Text.Decimal | client/src/components/task/taskCardComponent.tsx:78 | Non-empty digits, one digit exactly below 10, and a leading zero only for 0. |
| Text.DecimalRoundTrip | client/src/components/task/taskCardComponent.tsx:78 | The digits read back as the number. |
| TaskModal.AddTag | client/src/modal/TaskModal.tsx:134-140 | Appends the trimmed tag and clears the input exactly when the tag is non-empty and new. Otherwise tags and input are unchanged. |
| TaskModal.RemoveTag | client/src/modal/TaskModal.tsx:142-145 | Removes every occurrence of the tag and keeps every other tag, in order and as often as it occurred. |
| TaskModal.ToggleAssignee | client/src/modal/TaskModal.tsx:155-164 | Removes a present id entirely, keeping every other id in order and as often as it occurred. Appends an absent one. |
| TaskModal.RemoveAssignee | client/src/modal/TaskModal.tsx:166-168 | Removes every occurrence of the id and keeps every other id in order and as often as it occurred; an id that is not assigned leaves the list as it is. |
| TaskModal.Assigned | client/src/modal/TaskModal.tsx:170-172 | Exactly the team members whose id is assigned, in team order. |
| TaskModal.Unassigned | client/src/modal/TaskModal.tsx:174-176 | Exactly the team members whose id is not assigned, in team order. |
| TaskModal.TitleError | client/src/modal/TaskModal.tsx:229-236 | No error exactly for 1..100 characters. |
| TaskModal.SummaryError | client/src/modal/TaskModal.tsx:255-260 | No error exactly for at most 500 characters. |
| TaskModal.ResetValues | client/src/modal/TaskModal.tsx:85-109 | Create resets to "", todo, "", Normal, no assignees, no date, no tags, 0. Edit of a task copies its fields with the fallbacks. Edit without a task resets nothing. |
| TaskModal.DefaultValues | client/src/modal/TaskModal.tsx:66-77 | Without a task, the blank create values. |
| TaskModal.DefaultsAreCreateReset | client/src/modal/TaskModal.tsx:67-75 | The initial values without a task equal the create reset. |
| TaskModal.DefaultsAreEditReset | client/src/modal/TaskModal.tsx:67-75 | The initial values for a task equal the edit reset for it. |
| TaskModal.AddEnabledMeansAdds | client/src/modal/TaskModal.tsx:539-543 | Outside a submission, the add button is enabled exactly when pressing it changes the tags. |
| TaskModal.AddTagKeepsDistinct | client/src/modal/TaskModal.tsx:135-137 | Tags stay free of duplicates and grow by at most one. |
| TaskModal.RemoveUndoesAdd | client/src/modal/TaskModal.tsx:142-145 | Removing a just-added tag restores the list. |
| TaskModal.ToggleTwice | client/src/modal/TaskModal.tsx:155-164 | Toggling an absent id twice restores the list. |
| TaskModal.MembersPartition | client/src/modal/TaskModal.tsx:170-176 | The two member lists are disjoint, together cover the team, and their sizes add up to its size. |
| ProjectModal.Clean | client/src/modal/ProjectModal.tsx:57 | Exactly the capitals, digits and white space remain, in order, each as often as it occurred. |
| ProjectModal.Split | client/src/modal/ProjectModal.tsx:58 | At least one piece, and no piece contains a space. |
| ProjectModal.Prefix4 | client/src/modal/ProjectModal.tsx:61 | The first 4 characters, or the whole text when it is shorter. |
| ProjectModal.GeneratedKey | client/src/modal/ProjectModal.tsx:55-61 | At most 4 characters, each a capital, a digit or non-space white space. It is the first 4 word starts of the cleaned, uppercased name, which the split, charAt and join chain computes (InitialsAreWordStarts). |
| ProjectModal.KeyAfterNameChange | client/src/modal/ProjectModal.tsx:53-66 | The key is kept in edit mode or for an empty name. In create mode it is replaced by the generated key, unless that is empty. |
| ProjectModal.KeyError | client/src/modal/ProjectModal.tsx:146-149 | No error exactly for 1..10 characters. |
| ProjectModal.JoinSplit | client/src/modal/ProjectModal.tsx:58 | Joining the pieces with spaces gives back the text. |
| ProjectModal.InitialsAreWordStarts | client/src/modal/ProjectModal.tsx:58-60 | The first characters of the pieces are the word starts of the text. Empty pieces contribute nothing. |
| ProjectModal.WordStartsAreWordChars | client/src/modal/ProjectModal.tsx:58-59 | Every word start is a non-space character of the text. |
| ProjectModal.GeneratedKeyIsValid | client/src/modal/ProjectModal.tsx:61 | A non-empty generated key passes the key rule. |
| ProjectModal.DroppedCharacterIsIgnored | client/src/modal/ProjectModal.tsx:56-57 | A character the cleaning drops (such as the `-` of "a-b c") neither ends nor starts a word. |
| Kanban.FilterTasks | client/src/pages/KanbanBoardPage.tsx:80-97 | Keeps exactly the tasks that match search, priority and assignee, in order. |
| Kanban.GroupByStatus | client/src/pages/KanbanBoardPage.tsx:100-113 | Four columns, each exactly the tasks of its status in order. |
| Kanban.CountStats | client/src/pages/KanbanBoardPage.tsx:116-120 | Total is the task count, and todo, in progress and done are the sizes of those columns. Their sum is at most the total. |
| Kanban.FindTask | client/src/pages/KanbanBoardPage.tsx:196 | None exactly when no task has the id. Otherwise the first task with it. |
| Kanban.OnDragEnd | client/src/pages/KanbanBoardPage.tsx:185-209 | No change and no patch without a destination, for the same place, or for an unknown task. Otherwise exactly the tasks with that id get the destination status, the length is unchanged, and the patch names the task and status. |
| Kanban.NoFiltersShowAll | client/src/pages/KanbanBoardPage.tsx:82-95 | An empty search with both filters "all" keeps every task. |
| Kanban.BucketSizes | client/src/pages/KanbanBoardPage.tsx:100-113 | The four column sizes add up to the number of tasks. |
| Kanban.ColumnsKeepOrder | client/src/pages/KanbanBoardPage.tsx:108-110 | Each column is a subsequence holding exactly the tasks of its status. |
| Kanban.DragChangesOnlyThatTask | client/src/pages/KanbanBoardPage.tsx:203-206 | For a unique id, the board after a drag is the old board with only that task's status replaced. |
| Kanban.AsWrittenAgreesWhenAssigned | client/src/pages/KanbanBoardPage.tsx:82-87 | When every task has an assignee, the filter as written equals `FilterTasks`. |
| Kanban.AsWrittenThrows | client/src/pages/KanbanBoardPage.tsx:85-87 | A task without an assignee whose title and summary miss the search makes the filter as written throw. |
| Kanban.AsWrittenThrowsExample | client/src/pages/KanbanBoardPage.tsx:85 | Search "z" over a task with title "a", summary "b" and no assignee throws. |
| HomePage.FilterProjects | client/src/pages/HomePage.tsx:67-79 | Keeps exactly the projects whose name or creator contains the search, ignoring case, and whose status passes the filter, in order. |
| HomePage.EmptyHeading | client/src/pages/HomePage.tsx:401-403 | "No projects yet" exactly for an empty search with filter "all", and "No projects found" otherwise. |
| HomePage.NoFilterListsAll | client/src/pages/HomePage.tsx:69-77 | An empty search with filter "all" lists every project. |
| HomePage.OnlyThatStatus | client/src/pages/HomePage.tsx:74-75 | Under a status filter every listed project has that status. |
| TaskCard.PriorityColor | client/src/components/task/taskCardComponent.tsx:6-19 | Critical #ef4444, High #f97316, Normal #00B8E9, Low #10b981, and any other priority #6b7280. |
| TaskCard.ColoursDistinct | client/src/components/task/taskCardComponent.tsx:6-19 | The four named priorities and the default have five different colours. |
| TaskCard.ShownTags | client/src/components/task/taskCardComponent.tsx:64 | At most the first two tags, in order, and all of them when there are at most two. |
| TaskCard.Badge | client/src/components/task/taskCardComponent.tsx:76-80 | Present exactly when there are more than two tags. |
| TaskCard.BadgeCountsHiddenTags | client/src/components/task/taskCardComponent.tsx:62-80 | The badge shows "+N" with N the number of tags not shown, and the shown tags followed by the rest are all the tags. |
| TaskCard.ShowsProgress | client/src/components/task/taskCardComponent.tsx:42 | Hidden exactly when the progress is absent or not positive. |
| TaskCard.AssigneeLabel | client/src/components/task/taskCardComponent.tsx:86-101 | The username when there is an assignee, "Unassigned" otherwise. |
| TaskCard.AvatarName | client/src/components/task/taskCardComponent.tsx:92 | Never empty: the username, or "User" for an empty one. |
| UserState.Read | client/src/utils/UserState.ts:13-23 | A user exactly when the slot holds parsable JSON, and then that user. |
| UserState.MergeUser | client/src/utils/UserState.ts:31-34 | Each supplied field overrides, and each omitted field is kept. |
| UserState.Updated | client/src/utils/UserState.ts:25-39 | An empty slot stays empty and an unparsable slot is unchanged. A readable user is replaced by the merge. |
| UserState.UserStore.SetUserData | client/src/utils/UserState.ts:9-11 | The slot holds the user. |
| UserState.UserStore.GetUserData | client/src/utils/UserState.ts:13-23 | Returns the stored user exactly when the slot is parsable, and null otherwise. It changes nothing. |
| UserState.UserStore.UpdateUserData | client/src/utils/UserState.ts:25-39 | The slot becomes `Updated` of the old slot. |
| UserState.UserStore.DeleteUser | client/src/utils/UserState.ts:41-43 | The slot is empty. |
| UserState.GetAfterSet | client/src/utils/UserState.ts:9-23 | Reading after a set gives back the user. |
| UserState.UpdateNothingIsIdentity | client/src/utils/UserState.ts:30-35 | An update with no fields leaves the slot unchanged. |
| UserState.ReadAfterUpdate | client/src/utils/UserState.ts:25-39 | An update is visible exactly when a user was readable before, and then as the merge. |
| UserState.UpdatesCompose | client/src/utils/UserState.ts:31-34 | Two updates equal one update in which the later fields win. |
| UserState.FullUpdateIsSet | client/src/utils/UserState.ts:31-35 | An update with every field, on a readable slot, equals a set. |
| UserState.Session | client/src/utils/UserState.ts:9-43 | Set, update of the name, and read give the renamed user. After a delete the read gives null. |
| ServerApi.ErrorMessage | client/src/api/serverapi.ts:27-36 | With a response: the server message when non-empty, else the status text. Without a response: "No response from server" if a request went out, else the error's own message. |
| ServerApi.Intercept | client/src/api/serverapi.ts:25-41 | The settled call passes through unchanged. A toast appears exactly for a failure, with `ErrorMessage`. |
| ServerApi.ServerMessageWins | client/src/api/serverapi.ts:31 | A non-empty server message is the message, and an empty one counts as absent. |
| ServerApi.ResponseDecides | client/src/api/serverapi.ts:30-31 | Once a response arrived, the request flag and the error's own message do not matter. |

## Left out

- **Socket.IO transport.** `socket.join`/`leave`, the ordering and timing of delivery, and room membership are not modelled. A room's recipients are taken to be the registry entries of that room.
- **The TYPING_PAUSE tree upsert and the SEND_MESSAGE chat insert.** These are MongoDB writes, not part of this model. Only the registry change and the broadcast are modelled.
- **`socketId` in `getprojectId` and `getUserBySocketId`.** Both use `find`; the model takes the first entry like they do, and `console.error` is left out.
- **MongoDB.** The collections are in-memory maps and one user sequence. Not modelled:
  - mongoose schema validation and strictness, including that task.ts reads `assignee` while the task schema has `assignees`;
  - the task schema defaults (server/Models/Task.model.ts:24,31,37,44: status "todo", priority "Normal", empty `assignees` and `tags`), which `new Task` fills in and the 201 reply returns; the model stores the request's fields as given;
  - the `trim` option on the project name (server/Models/Project.model.ts:24); the model stores the name untrimmed;
  - the `trim` options on the username and the e-mail address (server/Models/User.model.ts:17,24); `AuthRoutes` stores and compares them untrimmed;
  - enum checking of incoming strings;
  - e-mail lowercasing;
  - unique indexes other than the project key;
  - ObjectId's 12-character string form.
- AuthRoutes.Signup: takes the username, address and password as strings, so a request that leaves one out cannot be expressed. In the source, `bcrypt.hash` of a missing password (server/Routes/auth.ts:30) or the schema's `required` check then throws into `next(error)`.
- **A filter field that is `undefined`.** In `User.findOne` it is taken to match no user.
- **Failed database calls.** A failing `save()` is `Unhandled`, or 500 where the handler maps it. Task create is modelled failing only when the new id is taken. Project create fails for an invalid creator id, a taken key or a taken id.
- **The aggregation pipelines of project.ts.** The member counts enter `ProjectRoutes.List` as the `counts` parameter.
- **The floating-point averages.** `averageProgress` in `/stats` and the Kanban `avgProgress` are not modelled. The latter is NaN without tasks.
- ProjectRoutes.ProgressPercent: is exact rounding half up. It does not model binary floating-point ties.
- ProjectRoutes.List: returns a map keyed by project id, so the order of the `$in` query result is not modelled.
- **Routes outside this model.** `GET /project/:projectId`, the task list routes, the user search with its regular expression, and the chat history query are not part of this model.
- **Random, mail, hashing and time are parameters.**
  - `Math.random` is the real `x` in [0, 1).
  - nodemailer's result is `emailSent`.
  - bcrypt is `hash` and `matches`.
  - `Date.now()` and the current time are `now` in milliseconds.
- ChatFormat.FormatDate: takes the hour and minute as integers. Date parsing and the time zone are not modelled.
- **The submitted OTP** is an `Option<int>`. JavaScript's loose `!=` between a string and a number is not modelled.
- **Strings are ASCII.** There is no Unicode case mapping or Unicode white space.
- ProjectModal.GeneratedKey: also allows a tab or another non-space white-space character as a key character. The cleaning keeps all white space, and the split is on `' '` only, so such characters can survive. This is a property of the code.
- **React.** Rendering, styling, focus, debounce, dialogs and toasts are not modelled, except the toast's message. The progress slider's range is enforced by the browser.
- **Kanban.BoardTask** carries the assignee's username. The client `Task` type holds `assignees` instead, so `task.assignee` read by the board and the card is always absent.
- **localStorage and JSON.** The slot holds either a user as JSON or text that `JSON.parse` rejects. Not modelled:
  - JSON that parses to something other than a user object;
  - a `Partial<User>` whose fields are present but `undefined`;
  - `console.error`.
- **`ServerApi`.** The `"Something went wrong"` initial value is never shown, because every branch overwrites it, so it is not modelled. A `data.message` that is not a string is not modelled either.
- **server/Helper/connect.ts and server/Helper/error.ts** are not part of this model.

## Findings

| source | as written | input that shows it | evidently intended | confidence | as-written member | corrected member |
|---|---|---|---|---|---|---|
| client/src/pages/KanbanBoardPage.tsx:85 | The search test reads `task.assignee.username` without `?.`, although the assignee filter two lines below uses `task.assignee?.username`. | A task with title "a", summary "b" and no assignee, with search "z": the title and summary miss, so `undefined.username` throws a TypeError and the board fails to render. | A task without an assignee simply does not match by assignee. | high, not executed | Kanban.AsWrittenThrowsExample | Kanban.FilterTasks |
