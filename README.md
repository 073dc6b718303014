# Legacy Echo Vault front end, modelled in Dafny

Legacy Echo Vault is a React front end for keeping family memories in shared
vaults. A vault holds memories. A memory is a text, a voice recording or a
photo, and it may be time-locked. Each memory carries a list of threads, which
are comments. The front end reaches a hosted database through one data-access
module.

This project models the rules that front end follows:

- the data-access module, with the hosted tables treated as in-memory
  sequences (`Backend`, on `Rows` and `Seqs`);
- the record schemas (`Schema`);
- the authentication context and the route guard (`Auth`, `ProtectedRoute`);
- the three submission forms:
  - the memory form, in both of its clients (`MemoryForm`, `WebMemoryForm`);
  - the thread form (`ThreadForm`);
  - the vault dialog (`VaultDialog`);
- the thread list's edit and delete flow (`ThreadList`);
- the voice recorder controller (`Recorder`);
- the display and permission rules of the memory card, the vault grid, the
  vault page and the memory page (`MemoryCard`, `VaultGrid`, `VaultView`,
  `MemoryView`).

The string operations these rules use are in `Text`. They are ECMAScript
`trim`, a one-character `split`, the decimal form of a number and
`padStart(2, '0')`.

Components whose handlers update state are classes. A class's fields are the
component's state. Every outward effect of a handler is appended to a `calls`
log: a request to the backend, a notification, a callback or a navigation.

Whatever the outside world answers is a parameter of the handler. This covers
an upload's URL or failure, an insert's id and timestamp, an auth reply, and
the clock. A handler that awaits is therefore one step, with the outcome of
each await given. The thread form is the exception. Its handler is split at
its `await`, because its re-entrancy guard only matters between the two
halves.

Most components also have a pure step function on a state datatype, and the
handler's `ensures` ties the new state to that function. The lemmas then state
what the source promises about the step functions:

- guard order;
- which requests are made, with what arguments and in what order;
- when callbacks run;
- that the loading flags are reset;
- round trips, such as reading a duration label back or splitting and joining.

JavaScript truthiness is written out. An empty string counts as absent
wherever the source tests a string as a condition: a route parameter, a
thread id, a story, a media URL, an error message.

## Model

| member | source | states |
|---|---|---|
| Backend.MemberVaultIds | src/services/api.ts:12-21 | an id is listed exactly when some membership row links the user to that vault |
| Backend.VaultsWithIds | src/services/api.ts:23-26 | the vaults kept are exactly the table's vaults whose id is among the given ids |
| Backend.GetVaults | src/services/api.ts:11-31 | a vault is returned exactly when it is in the table and the user has a membership row for it; no membership rows gives the empty list |
| Backend.GetMemories | src/services/api.ts:61-70 | exactly the vault's memories, the same rows as the filter, ordered newest first |
| Backend.GetThreads | src/services/api.ts:86-95 | exactly the memory's threads, the same rows as the filter, ordered oldest first |
| Backend.GetVaultRole | src/services/api.ts:161-174 | a role exactly when a single membership row matches vault and user, and then that row's role; none when no row matches |
| Backend.Store.CreateVault | src/services/api.ts:33-58 | a rejected vault insert fails and changes nothing; otherwise the vault row is added, and the owner row too when its insert succeeds; a rejected owner insert fails but leaves the vault row in place |
| Backend.Store.CreateMemory | src/services/api.ts:72-83 | a rejected insert changes nothing; otherwise exactly the stored row is appended to the memories table, the row is returned, and the other tables are unchanged |
| Backend.Store.AddThread | src/services/api.ts:97-108 | a rejected insert changes nothing; otherwise exactly the stored row is appended to the threads table, the row is returned, and the other tables are unchanged |
| Backend.CreatorOwnsNewVault | src/services/api.ts:38-57 | after both inserts, the creator's role in the new vault is owner and the vault is among the creator's vaults |
| Backend.OrphanVaultUnreachable | src/services/api.ts:47-55 | without the owner row, the stranded vault gives nobody a role and appears in nobody's vault list |
| Backend.CreatedMemoryListed | src/services/api.ts:61-83 | a created memory is listed for its vault, and every earlier listed memory is still listed |
| Backend.AddedThreadListed | src/services/api.ts:86-108 | an added thread is listed for its memory |
| Backend.ThreadOrderDetermined | src/services/api.ts:86-95 | with distinct creation times, the thread list is the unique oldest-first ordering of the memory's threads |
| Backend.MemoryOrderDetermined | src/services/api.ts:61-70 | with distinct creation times, the memory list is the unique newest-first ordering of the vault's memories |
| Seqs.Filter | src/services/api.ts:65 | the kept rows are exactly those of the table that satisfy the condition, and no more of them than the table has |
| Seqs.FilterAppendOne | src/services/api.ts:72-83 | filtering a table after an insert is the old result, plus the new row when it matches |
| Seqs.FilterConcat | src/services/api.ts:65 | filtering keeps the order of the table's parts |
| Seqs.Insert | src/services/api.ts:66 | inserting into a sorted list keeps it sorted and adds exactly that one row |
| Seqs.SortBy | src/services/api.ts:66 | the result is sorted by the key and is a permutation of the input |
| Seqs.SortedUnique | src/services/api.ts:91 | a strictly ordered list is the only sorted ordering of its rows |
| Schema.ParseThread | src/lib/types.ts:37-46 | a thread parses exactly when it meets every constraint; the parsed thread keeps each field and defaults `is_edited` to false |
| Schema.NameBoundsReject | src/lib/types.ts:7-15 | a user name under two characters, or a vault name under three, makes the record invalid |
| Schema.UnknownThemeRejected | src/lib/types.ts:18 | any theme outside sepia, midnight, pearl and dusk makes a vault invalid |
| Schema.EmptyStoryAccepted | src/lib/types.ts:26-28 | a valid memory stays valid with an empty story |
| Schema.CommentExtendsThread | src/lib/types.ts:48-50 | a comment is valid exactly when its thread part parses and its `thread_id` is a UUID |
| Schema.CreateThreadIsPick | src/lib/types.ts:81-85 | the create schema accepts the picked fields exactly when the full thread, completed with valid other fields, parses |
| Schema.UpdateThreadChecksOnlyContent | src/lib/types.ts:87-89 | an update is accepted exactly when the new content keeps a valid thread valid |
| Schema.ParseRole | src/lib/types.ts:56 | a parsed role is the one whose stored name was read |
| Schema.RoleRoundTrip | src/lib/types.ts:56 | every role's stored name parses back to that role |
| Schema.MemberRoles | src/lib/types.ts:52-59 | a member is valid exactly for the role names owner, editor and viewer |
| Schema.MemoryTypeEnumsDiffer | src/lib/types.ts:28 | the schema rejects the 'audio' type the memory form stores and accepts 'voice' |
| Auth.OnAuthEvent | src/contexts/AuthContext.tsx:40-50 | SIGNED_IN and TOKEN_REFRESHED adopt the session and its user; SIGNED_OUT clears both; any other event changes nothing; loading is untouched |
| Auth.OnAuthEventKeepsConsistent | src/contexts/AuthContext.tsx:40-50 | every event keeps the user equal to the session's user |
| Auth.SignedOutEndsSession | src/contexts/AuthContext.tsx:46-48 | after a SIGNED_OUT event nobody is signed in, whatever came before |
| Auth.AuthProvider.constructor | src/contexts/AuthContext.tsx:18-20 | the provider starts with no user, no session and loading on |
| Auth.AuthProvider.FetchSession | src/contexts/AuthContext.tsx:24-36 | a fetched session and its user are adopted only on success; loading is off afterwards either way |
| Auth.AuthProvider.OnAuthStateChange | src/contexts/AuthContext.tsx:40-50 | the handler applies the event reducer to the provider's state |
| Auth.AuthProvider.BeginSignIn | src/contexts/AuthContext.tsx:57-65 | loading turns on and exactly one magic-link request is sent |
| Auth.AuthProvider.FinishSignIn | src/contexts/AuthContext.tsx:67-88 | the notification for the reply is shown, loading turns off, and the user is untouched |
| Auth.AuthProvider.BeginSignOut | src/contexts/AuthContext.tsx:91-94 | loading turns on and exactly one sign-out request is sent |
| Auth.AuthProvider.FinishSignOut | src/contexts/AuthContext.tsx:95-111 | a notification only on failure; loading turns off; the user is not cleared here |
| Auth.UseAuth | src/contexts/AuthContext.tsx:121-127 | outside a provider it fails with the provider message; inside one it gives the context value |
| ProtectedRoute.Render | src/components/ProtectedRoute.tsx:16-26 | the loading screen exactly while loading; the children exactly when loaded and signed in |
| ProtectedRoute.Redirect | src/components/ProtectedRoute.tsx:10-14 | a redirect, always to '/auth', exactly when loaded and signed out |
| ProtectedRoute.LoadingShowsOnlyLoadingScreen | src/components/ProtectedRoute.tsx:10-24 | while loading only the loading screen, with no redirect |
| ProtectedRoute.SignedOutRedirects | src/components/ProtectedRoute.tsx:11-13 | loaded and signed out renders nothing and redirects to '/auth' |
| ProtectedRoute.SignedInNeverRedirects | src/components/ProtectedRoute.tsx:11 | a signed-in user is never redirected, and the children never come with a redirect |
| ProtectedRoute.ExactlyOneOutcome | src/components/ProtectedRoute.tsx:10-26 | every state is loading, the children or a redirect, and a redirect renders nothing |
| ProtectedRoute.SignOutEventRedirects | src/components/ProtectedRoute.tsx:11-13 | a SIGNED_OUT event on a loaded page leads to the redirect |
| Text.TrimStart | src/components/CreateMemoryForm.tsx:52 | the result does not start with white space, and is empty exactly when the input is blank |
| Text.TrimEnd | src/components/CreateMemoryForm.tsx:52 | the result does not end with white space, and is empty exactly when the input is blank |
| Text.Trim | src/components/CreateMemoryForm.tsx:52 | the result has no outer white space, and is empty exactly when the input is blank |
| Text.TrimIsSlice | src/components/CreateMemoryForm.tsx:80 | the trimmed text is the contiguous slice of the input that starts after the leading white space |
| Text.TrimDropsOnlySpace | src/components/CreateMemoryForm.tsx:80 | what trimming drops on either side is white space only |
| Text.TrimIdempotent | src/components/CreateMemoryForm.tsx:80 | trimming twice is trimming once |
| Text.NoOuterSpaceIsTrimmed | src/components/CreateMemoryForm.tsx:80 | text without outer white space is its own trim |
| Text.Split | src/components/CreateMemoryForm.tsx:79 | one piece more than there are separators, and no piece holds the separator |
| Text.JoinSplit | src/components/CreateMemoryForm.tsx:79 | joining the pieces with the separator gives back the input |
| Text.SplitAt | src/components/CreateMemoryForm.tsx:79 | splitting at a separator gives the pieces of the left part, then those of the right part |
| Text.NatToDecimal | src/components/VoiceMemoryRecorder.tsx:119 | a non-empty string of digits without a leading zero |
| Text.DecimalRoundTrip | src/components/VoiceMemoryRecorder.tsx:119 | reading the digits back gives the number |
| Text.PadTwo | src/components/VoiceMemoryRecorder.tsx:119 | at least two characters: the input, preceded by zeros only |
| MemoryForm.KeepTags | src/components/CreateMemoryForm.tsx:80-81 | no more tags than pieces; every tag is non-empty with no outer white space |
| MemoryForm.KeepTagsMembership | src/components/CreateMemoryForm.tsx:80-81 | a string is kept exactly when it is the non-empty trim of some piece |
| MemoryForm.KeepTagsConcat | src/components/CreateMemoryForm.tsx:80-81 | the pieces keep their order |
| MemoryForm.ParseTags | src/components/CreateMemoryForm.tsx:78-81 | at most one tag more than there are commas; every tag is non-empty with no outer white space |
| MemoryForm.ParseTagsMembership | src/components/CreateMemoryForm.tsx:78-81 | a tag is parsed exactly when it is the non-empty trim of a comma-separated piece |
| MemoryForm.ParseTagsConcat | src/components/CreateMemoryForm.tsx:78-81 | tags keep their input order across a comma |
| MemoryForm.ComposeStory | src/components/CreateMemoryForm.tsx:86-90 | the story is a prefix of the result; a text memory's story is unchanged; audio and photo stories grow by marker, URL and bracket |
| MemoryForm.ComposedStoryCarriesUrl | src/components/CreateMemoryForm.tsx:86-90 | the marker, the URL and the closing bracket can be read back at their positions after the story |
| MemoryForm.CreateMemoryForm.constructor | src/components/CreateMemoryForm.tsx:28-35 | the form starts empty, as a text memory, without files or unlock date, not loading |
| MemoryForm.CreateMemoryForm.PickUnlockDate | src/components/CreateMemoryForm.tsx:225-227 | only a date strictly after now becomes the unlock date |
| MemoryForm.CreateMemoryForm.HandleSubmit | src/components/CreateMemoryForm.tsx:40-113 | the calls are those of the submission function; loading is off after every submission that passed both guards |
| MemoryForm.CreateMemoryForm.Save | src/components/CreateMemoryForm.tsx:62-109 | the calls are the upload, the create and its outcome, as the try block and its catch make them |
| MemoryForm.CreateMemoryForm.UploadAttachment | src/components/CreateMemoryForm.tsx:64-75 | only the planned upload is sent; its URL goes to the field of the memory's type; failure is reported exactly when the planned upload rejects |
| MemoryForm.SignedOutSubmitOnlyWarns | src/components/CreateMemoryForm.tsx:43-50 | signed out: only the authentication notification, before any field check |
| MemoryForm.BlankFieldsOnlyWarn | src/components/CreateMemoryForm.tsx:52-59 | a blank title or story: only the required-fields notification, no request |
| MemoryForm.SubmitLayout | src/components/CreateMemoryForm.tsx:61-95 | an upload only first and only the planned one; the create only after both guards and a successful upload, right after it, with the draft for the uploaded URL |
| MemoryForm.UploadsFollowType | src/components/CreateMemoryForm.tsx:67-83 | uploads go to 'audio' only for an audio memory with its file, to 'photos' only for a photo memory with its photo; at most one, before the create |
| MemoryForm.CreatedRecordShape | src/components/CreateMemoryForm.tsx:83-95 | the created record has the form's vault, the user's id, the entered title, the parsed tags, the type, and the picked unlock date or none |
| MemoryForm.CallbackOnlyAfterCreate | src/components/CreateMemoryForm.tsx:97-109 | the callback runs exactly when the guards pass, the upload succeeds and the create succeeds; it comes last, after the success notification, and one memory is created |
| WebMemoryForm.CreateMemoryForm.constructor | frontend/my-app/apps/web/components/CreateMemoryForm.tsx:12-16 | the form starts empty, without error, not submitting |
| WebMemoryForm.CreateMemoryForm.HandleSubmit | frontend/my-app/apps/web/components/CreateMemoryForm.tsx:19-48 | the calls and the error are those of the submission functions; submitting is off after every submission past the field check |
| WebMemoryForm.MissingFieldsStopSubmit | frontend/my-app/apps/web/components/CreateMemoryForm.tsx:21-24 | an empty title or content sets the required-fields error and sends nothing |
| WebMemoryForm.BlankFieldsPass | frontend/my-app/apps/web/components/CreateMemoryForm.tsx:21-24 | white-space fields are not trimmed and reach the create |
| WebMemoryForm.UploadBeforeCreate | frontend/my-app/apps/web/components/CreateMemoryForm.tsx:29-40 | an upload exactly when the fields are filled and a file is chosen; it comes first, and the create carries its URL |
| WebMemoryForm.SignedOutCreatesWithEmptyUser | frontend/my-app/apps/web/components/CreateMemoryForm.tsx:38 | signed out, the memory is still created, with an empty user id |
| WebMemoryForm.CallbackOnlyOnSuccess | frontend/my-app/apps/web/components/CreateMemoryForm.tsx:42-47 | the callback runs exactly on full success; any failure after the field check sets the failure message |
| WebMemoryForm.ErrorNeverCleared | frontend/my-app/apps/web/components/CreateMemoryForm.tsx:15-46 | once set, the error stays non-empty after every later submission |
| ThreadForm.CreateThreadForm.constructor | src/components/CreateThreadForm.tsx:23-31 | the form starts with empty content, not submitting |
| ThreadForm.CreateThreadForm.Submit | src/components/CreateThreadForm.tsx:33-41 | the new state is the submit step: nothing unless the values validate and nothing is pending |
| ThreadForm.CreateThreadForm.Complete | src/components/CreateThreadForm.tsx:42-56 | the new state is the completion step for the outcome |
| ThreadForm.PendingSubmitIgnored | src/components/CreateThreadForm.tsx:34 | a submit while one is pending changes nothing |
| ThreadForm.InvalidContentNeverSent | src/components/CreateThreadForm.tsx:24-31 | empty content, or content over 1000 characters, never reaches the create |
| ThreadForm.SubmitSendsCreate | src/components/CreateThreadForm.tsx:34-41 | a submit starts exactly for a UUID memory id and valid content, and then sends one create with that id, the content and no parent |
| ThreadForm.SuccessfulSubmission | src/components/CreateThreadForm.tsx:37-47 | success: create, success notification, then the callback; the content resets and nothing is pending |
| ThreadForm.FailedSubmission | src/components/CreateThreadForm.tsx:48-56 | failure: create and error notification, no callback; the content is kept and nothing is pending |
| ThreadForm.CompleteClearsPending | src/components/CreateThreadForm.tsx:54-56 | nothing is pending after either outcome |
| VaultDialog.CreateVaultDialog.constructor | src/components/CreateVaultDialog.tsx:29-30 | the dialog starts with an empty name, not loading |
| VaultDialog.CreateVaultDialog.HandleCreateVault | src/components/CreateVaultDialog.tsx:34-73 | the calls and the name are those of the create functions; loading is off after every attempt past both checks |
| VaultDialog.BlankNameCheckedFirst | src/components/CreateVaultDialog.tsx:35-42 | a blank name gives only the name notification, even when signed out |
| VaultDialog.SignedOutOnlyWarns | src/components/CreateVaultDialog.tsx:44-51 | signed out with a name: only the authentication notification |
| VaultDialog.CreateReceivesUntrimmedName | src/components/CreateVaultDialog.tsx:55 | the one create gets the name as typed, the user's id and the sepia theme |
| VaultDialog.DialogVaultAgainstSchema | src/components/CreateVaultDialog.tsx:35-55 | the sent theme always passes the vault schema; the requested vault is valid exactly when the name has three characters or more |
| VaultDialog.OutcomeOrder | src/components/CreateVaultDialog.tsx:56-69 | success: notification, close, then the callback, with the name cleared; failure: error notification only, with the name kept |
| ThreadList.ControlledThreads | src/components/ThreadList.tsx:144 | the threads with controls are exactly those the signed-in user created |
| ThreadList.ThreadListView.constructor | src/components/ThreadList.tsx:26-30 | the list starts empty, with no editor, no pending delete, not loading |
| ThreadList.ThreadListView.LoadThreads | src/components/ThreadList.tsx:43-54 | the new state is the load step: the fetched threads, or a notification |
| ThreadList.ThreadListView.HandleEdit | src/components/ThreadList.tsx:56-59 | the new state is the edit step |
| ThreadList.ThreadListView.SetEditContent | src/components/ThreadList.tsx:115 | only the editor's text changes |
| ThreadList.ThreadListView.HandleSaveEdit | src/components/ThreadList.tsx:61-82 | the new state is the save step |
| ThreadList.ThreadListView.Cancel | src/components/ThreadList.tsx:127 | the new state is the cancel step |
| ThreadList.ThreadListView.RequestDelete | src/components/ThreadList.tsx:156 | the new state is the delete-request step |
| ThreadList.ThreadListView.CloseDialog | src/components/ThreadList.tsx:168 | the new state is the dialog-close step |
| ThreadList.ThreadListView.HandleDelete | src/components/ThreadList.tsx:84-102 | the new state is the delete step |
| ThreadList.ThreadListView.ConfirmDelete | src/components/ThreadList.tsx:179 | the new state is the confirm step |
| ThreadList.EditLoadsThread | src/components/ThreadList.tsx:56-59 | editing loads the thread's id and content, touches nothing else, and shows the editor row |
| ThreadList.SaveWithoutEditorIsNoop | src/components/ThreadList.tsx:62 | with no thread being edited, saving does nothing, including right after Cancel |
| ThreadList.SaveSendsContentOnly | src/components/ThreadList.tsx:61-82 | one update, of the edited id with the editor's text; success empties the editor, failure keeps it; loading ends |
| ThreadList.DeleteOnlyThroughConfirmation | src/components/ThreadList.tsx:156-179 | Delete and closing the dialog send nothing; confirming deletes the thread whose Delete was pressed |
| ThreadList.ConfirmWithoutRequestIsNoop | src/components/ThreadList.tsx:179 | confirming with nothing pending does nothing |
| ThreadList.DeleteOutcome | src/components/ThreadList.tsx:84-102 | success closes the dialog; failure keeps it on the same thread; loading ends |
| ThreadList.ControlsOnlyForCreator | src/components/ThreadList.tsx:144 | only the signed-in creator gets a thread's controls; a signed-out viewer gets none |
| Recorder.TickBounded | src/components/VoiceMemoryRecorder.tsx:65-71 | a tick never passes the maximum, never goes back, and stays put exactly at the maximum |
| Recorder.DurationIsCappedTickCount | src/components/VoiceMemoryRecorder.tsx:64-72 | from a fresh start the duration is the number of ticks, up to the maximum |
| Recorder.LeadingZero | src/components/VoiceMemoryRecorder.tsx:119 | the padding zero does not change the seconds' value |
| Recorder.SecondsField | src/components/VoiceMemoryRecorder.tsx:118-119 | the seconds field is always two digits worth the remaining seconds |
| Recorder.SplitLabel | src/components/VoiceMemoryRecorder.tsx:119 | a label with one colon splits into its two sides |
| Recorder.LabelSplits | src/components/VoiceMemoryRecorder.tsx:116-120 | the label splits at its colon into the minutes and the padded seconds |
| Recorder.LabelFieldsValue | src/components/VoiceMemoryRecorder.tsx:116-120 | the label's two fields are well formed and worth the minutes and the seconds |
| Recorder.FormatDurationRoundTrip | src/components/VoiceMemoryRecorder.tsx:116-120 | reading the label back gives the seconds, so no two durations share a label |
| Recorder.DefaultMaxLabel | src/components/VoiceMemoryRecorder.tsx:13 | the default maximum of 300 seconds shows as "5:00" |
| Recorder.VoiceMemoryRecorder.constructor | src/components/VoiceMemoryRecorder.tsx:15-20 | idle, not paused, duration 0, no timer, no recorder, no chunks |
| Recorder.VoiceMemoryRecorder.Start | src/components/VoiceMemoryRecorder.tsx:22-76 | without microphone access only the error notification; otherwise recording, not paused, duration 0, timer running, buffer emptied |
| Recorder.VoiceMemoryRecorder.DataAvailable | src/components/VoiceMemoryRecorder.tsx:29-33 | only chunks of positive size are appended, in arrival order |
| Recorder.VoiceMemoryRecorder.Tick | src/components/VoiceMemoryRecorder.tsx:64-72 | while the timer runs, one capped tick; the duration stays within the maximum |
| Recorder.VoiceMemoryRecorder.Stop | src/components/VoiceMemoryRecorder.tsx:78-87 | a no-op unless recording; afterwards not recording, not paused, timer cleared |
| Recorder.VoiceMemoryRecorder.Pause | src/components/VoiceMemoryRecorder.tsx:89-97 | only while recording and not paused: paused, timer cleared; paused implies recording |
| Recorder.VoiceMemoryRecorder.Resume | src/components/VoiceMemoryRecorder.tsx:99-114 | only while recording and paused: not paused, timer running |
| Recorder.VoiceMemoryRecorder.OnStop | src/components/VoiceMemoryRecorder.tsx:35-56 | the calls are the upload of the buffer, the outcome and the track stop |
| Recorder.RecordingCompleteOnlyOnData | src/components/VoiceMemoryRecorder.tsx:43-55 | the callback runs exactly when the response has no error and has data, with that data; the whole buffer is uploaded; the tracks are stopped last in every case |
| MemoryCard.TypeIcon | src/components/MemoryCard.tsx:23-33 | audio gives the audio icon, photo the image icon, and every other type the text icon |
| MemoryCard.TagStripOf | src/components/MemoryCard.tsx:80-92 | no strip without tags; the first two tags as chips; a badge exactly beyond two tags; chips and badge count every tag |
| MemoryCard.LockedCardHidesStory | src/components/MemoryCard.tsx:54-78 | the button is disabled and reads 'Locked' exactly when locked; the story shows exactly when unlocked |
| MemoryCard.ClickPassesId | src/components/MemoryCard.tsx:75-76 | a click reports exactly the memory's id, and only when unlocked |
| MemoryCard.UnlockIsPermanent | src/components/MemoryCard.tsx:21 | an unlocked memory stays unlocked as time passes |
| MemoryCard.PickedDateLocks | src/components/MemoryCard.tsx:21 | a memory saved with a date the form's calendar allows is locked when saved |
| MemoryCard.TagStripCountsAll | src/components/MemoryCard.tsx:82-89 | the chips are the first tags and the badge counts the rest |
| VaultGrid.VaultBackground | src/components/VaultGrid.tsx:17-22 | sepia wins, then sage, then parchment, else cream, each exactly under its condition |
| VaultGrid.BackgroundDependsOnSetOnly | src/components/VaultGrid.tsx:17-22 | the background depends only on which themes are present |
| VaultGrid.SchemaVaultsSepiaOrCream | src/components/VaultGrid.tsx:17-22 | a vault the schema accepts is drawn sepia or cream, sepia exactly when it has that theme |
| VaultGrid.VaultCards | src/components/VaultGrid.tsx:41-71 | one card per vault, in order, with its id, name, background and route |
| VaultGrid.OneCardPerVault | src/components/VaultGrid.tsx:27-71 | the create card first, then exactly one card per vault, each leading to `/vault/` and its id |
| VaultView.VaultPage.constructor | src/pages/VaultView.tsx:17-20 | no memories, loading, form hidden, no role |
| VaultView.VaultPage.FetchMemoriesNow | src/pages/VaultView.tsx:25-47 | the new state is the fetch step |
| VaultView.VaultPage.OpenForm | src/pages/VaultView.tsx:87 | only the form is shown |
| VaultView.VaultPage.OnMemoryCreated | src/pages/VaultView.tsx:101-104 | the form is hidden, then the fetch step runs |
| VaultView.VaultPage.OnCancel | src/pages/VaultView.tsx:105 | only the form is hidden, nothing is fetched |
| VaultView.VaultPage.HandleMemoryClick | src/pages/VaultView.tsx:53-55 | one navigation to the memory's page |
| VaultView.CreatePermission | src/pages/VaultView.tsx:57 | creating is allowed exactly for owners and editors |
| VaultView.CreateControlsNeedPermission | src/pages/VaultView.tsx:84-141 | both create controls appear only with permission, and Add Memory whenever the form is hidden |
| VaultView.NounAgreesWithCount | src/pages/VaultView.tsx:75 | 'memory' exactly for one, 'memories' otherwise |
| VaultView.NoVaultIdNoFetch | src/pages/VaultView.tsx:26 | no vault id, or an empty one: nothing fetched, nothing changed |
| VaultView.FetchEndsLoading | src/pages/VaultView.tsx:28-46 | loading ends; the role is looked up only when signed in, and then last |
| VaultView.FetchedMemoriesBelongToVault | src/pages/VaultView.tsx:29-43 | success lists exactly the vault's memories, newest first; failure keeps list and role and shows the failure notification |
| VaultView.SignedOutKeepsEarlierRole | src/pages/VaultView.tsx:33-36 | a signed-out fetch keeps an earlier role, so the create control can outlive the sign-in |
| VaultView.CreatorMayAddMemories | src/pages/VaultView.tsx:30-57 | the creator of a vault made by both inserts gets the create control there |
| MemoryView.ContentBlocks | src/components/MemoryView.tsx:32-52 | at most two blocks |
| MemoryView.StoryShownIffNonEmpty | src/components/MemoryView.tsx:32 | the story block exactly for a non-empty story, and it holds the story |
| MemoryView.VoicePlayerShownIff | src/components/MemoryView.tsx:37-42 | the voice player exactly for a voice memory with a media URL, playing that URL |
| MemoryView.PhotoShownIff | src/components/MemoryView.tsx:43-52 | the photo exactly for a photo memory with a media URL, showing that URL |
| MemoryView.AtMostOneMedia | src/components/MemoryView.tsx:37-52 | never both players; a text memory shows only its story |
| MemoryView.TabContentOf | src/components/MemoryView.tsx:25-60 | the content tab shows blocks; the threads tab shows panels |
| MemoryView.TabsContent | src/components/MemoryView.tsx:25-60 | content is the default tab; the threads tab holds the form above the list, both for this memory |

## Left out

- src/lib/database.types.ts is not part of this model. The row shapes follow shared/types/database.types.ts, with timestamps as integers, and a memory's `type` is kept as a string.
- The backend client, its query builder and its error objects are left out. A failed insert is a `Rejected` answer. A failed read is modelled where the caller catches it: `memoriesOk` in the vault page.
- `uploadFile` and the storage public URL are left out. An upload is an outcome parameter, a URL or a failure. So is each client's own view of the upload's result: the recorder expects an `{error, data}` object, while the data module returns a string.
- `createUserProfile` and `getUserProfile` are not used by the modelled components.
- The thread list's realtime subscription is left out, because its service is not shown. The thread forms and the list call a `threadService` that the shown data module does not export, so their requests are calls in the log.
- zod's e-mail, UUID and date-time checks are library patterns. They are the `Formats` parameter.
- react-hook-form is left out: its field state, its reset, and its validation before the handler runs. `ThreadForm.Submit` validates the values itself.
- The thread form's optional `onSuccess` is a boolean saying whether it was given.
- Notification variants are left out (e.g. 'destructive'), as is `console.error`.
- Recorder.VoiceMemoryRecorder.Tick: the stop that the timer callback requests at the maximum runs through a stale closure. It is not modelled. Only the cap on the duration is stated.
- Recorder.VoiceMemoryRecorder.Start: a second start while recording replaces the recorder. The interval it leaves running is not tracked.
- `MediaRecorder`, `getUserMedia`, `setInterval` and the Blob are left out. The microphone outcome and each callback of the recorder are method calls with parameters.
- VoiceMemoryPlayer is left out, because it works on floating-point seconds and an audio element.
- The clock is an integer `now`. `Date.now()`, `toISOString` and the date formatting (`toLocaleDateString`, `formatDistanceToNow`) are left out.
- JSX markup, CSS classes, icons, `line-clamp` and the vault heading `memories[0]?.vault_id` are left out. So is the AlertDialog action's own closing of the dialog.
- App routing, Layout, and the other pages and components are outside the modelled core.
