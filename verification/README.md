# SimplStream core, modelled in Dafny

SimplStream is a browser front end for watching films, series and live TV.
Several local profiles share one browser. Each profile can be protected by a
PIN, recovered with a security word, and has its own watch history,
watchlist, star ratings, search history and pinned live channels. All of it
lives in the browser's local storage. Title data comes from TMDB, and the
player embeds third-party providers.

This project models the rules of that core and proves them. Every file is one
module:

- `types.dfy`: the records (profiles, history rows, watchlist rows, ratings, channels) and `Option`/`Result`.
- `text.dfy`: the JavaScript string functions the code relies on: `trim`, case mapping, `split`, `parseInt`, number printing.
- `collections.dfy`: the array idioms: `filter`, `findIndex`, find-then-replace-or-push, a first-per-key `reduce`, the score sort, `slice`.
- `base64.dfy`: `btoa`/`atob`, following section 4 of RFC 4648 and the forgiving-base64 decode of the WHATWG Infra standard.
- `codec.dfy`: the XOR-with-key obfuscation used for profile export.
- `storage_state.dfy`: local storage as one value per key, with one pure function per storage operation.
- `storage.dfy`: the store as a class. Each method proves that its new state is the pure function of its old state.
- `storage_laws.dfy`, `import_laws.dfy`: what the storage operations promise (uniqueness, cascades, locality, round trips).
- `profile_selector.dfy`: the profile picker with its attempt lock, PIN dialog and security-word recovery.
- `profile_settings.dfy`, `home_view.dfy`, `settings_view.dfy`: the passcode, remove-data and search-history handlers, continue-watching, the seasonal popup, and the hero switches.
- `app.dfy`: the view state machine with its one-slot back stack.
- `tmdb.dfy`: image URLs, the request URL, the embed providers, and GoDrivePlayer.
- `player_view.dfy`, `smart_search_view.dfy`, `detail_view.dfy`, `search_view.dfy`, `live_tv_view.dfy`, `watchlist.dfy`: the viewing screens and the shared watchlist button.
- `recommendations.dfy`: the profile recommendations (seen titles, genre weights, top genres, score, cut).
- `surprise_me_wizard.dfy`: the six-step "Surprise me" wizard.
- `theme_context.dfy`, `access_lock_dialog.dfy`, `terms_view.dfy`: the theme provider, the access-lock dialog and the hidden counters of the terms screen.

Code that changes state step by step is modelled as classes with `modifies`
clauses and loops with invariants. Screens are classes whose fields are the
component's state, and the store is passed to their methods. Pure rules are
modelled as functions, with lemmas about them. Sources that are not
deterministic are parameters: fresh ids, the clock, request outcomes, the
system's colour-scheme preference and the random channel pick.

## Model

| member | source | states |
|---|---|---|
| Storage.Store.SaveProfile | src/lib/storage.ts:21-32 | the new store is saveProfile of the old one, and a consistent store stays consistent |
| Storage.Store.DeleteProfile | src/lib/storage.ts:34-44 | the new store is deleteProfile of the old one, and consistency is kept |
| Storage.Store.DeleteAllData | src/lib/storage.ts:46-50 | the store after removing the seven STORAGE_KEYS |
| Storage.Store.SaveWatchHistory | src/lib/storage.ts:59-70 | replace-by-id or append, and consistency is kept |
| Storage.Store.AddToWatchlist | src/lib/storage.ts:83-91 | append unless the (profile, tmdb id) pair is listed, and consistency is kept |
| Storage.Store.RemoveFromWatchlist | src/lib/storage.ts:93-96 | drops the profile's rows for the tmdb id, and consistency is kept |
| Storage.Store.SaveRating | src/lib/storage.ts:143-154 | upsert by (profile, tmdb id, media type), and consistency is kept |
| Storage.Store.SaveTheme | src/lib/storage.ts:109-111 | the stored theme becomes the argument |
| Storage.Store.SetPreferredServer | src/lib/storage.ts:127-129 | the stored server key becomes the argument |
| Storage.Store.SetHeroAutoplay | src/components/SettingsView.tsx:19-21 | the autoplay key holds the given text and nothing else changes |
| Storage.Store.SetHeroMuted | src/components/SettingsView.tsx:27-29 | the muted key holds the given text and nothing else changes |
| Storage.Store.SaveRecommendations | src/lib/storage.ts:168-179 | a saved set under the given fresh id is appended |
| Storage.Store.DeleteSavedRecommendations | src/lib/storage.ts:181-185 | drops the saved set with that id |
| Storage.Store.RemoveProfileData | src/lib/storage.ts:188-211 | the three optional steps composed (RemoveProfileDataSteps), and consistency is kept |
| Storage.Store.TogglePinnedChannel | src/lib/storage.ts:220-234 | removes the name if pinned, else appends it, for that profile only |
| Storage.Store.AddSearchHistory | src/lib/storage.ts:329-341 | the query first, case-insensitive copies dropped, at most 20 |
| Storage.Store.ClearSearchHistory | src/lib/storage.ts:343-348 | the profile's entry is deleted |
| Storage.Store.SetSearchHistoryEnabled | src/lib/storage.ts:356-363 | the flag of a stored profile is set; otherwise nothing changes |
| Storage.Store.SetAccessLockStatus | src/lib/storage.ts:383-389 | the global lock flag becomes the argument |
| Storage.Store.IncrementFailedAttempts | src/lib/storage.ts:404-415 | returns the new count, and sets the lock from the fifth failure on |
| Storage.Store.ResetFailedAttempts | src/lib/storage.ts:417-423 | deletes the profile's count |
| Storage.Store.SaveCustomAvatar | src/lib/storage.ts:431-436 | stores the avatar under the profile id |
| Storage.Store.DeleteCustomAvatar | src/lib/storage.ts:438-443 | deletes the profile's avatar |
| Storage.Store.ExportProfileData | src/lib/storage.ts:259-276 | the encrypted envelope; it fails exactly when the serialised text has a code unit above 0xFF |
| Storage.Store.ImportProfileData | src/lib/storage.ts:278-320 | decrypt, parse, check, then the writes; a consistent store stays consistent |
| Storage.Store.ImportEnvelope | src/lib/storage.ts:287-313 | the writes of a successful import, composed stage by stage (ImportEnvelopeSteps) |
| Storage.Store.ImportHistory | src/lib/storage.ts:294-299 | the loop over history rows: each row is saved under its fresh id and the new profile |
| Storage.Store.ImportWatchlist | src/lib/storage.ts:301-306 | the loop over watchlist rows, going through addToWatchlist |
| Storage.Store.ImportRatings | src/lib/storage.ts:308-313 | the loop over ratings, going through saveRating |
| StorageLaws.SaveProfileLaws | src/lib/storage.ts:21-32 | replaces in place or appends; other profiles and their order are unchanged; nothing else is touched |
| StorageState.SaveProfile | src/lib/storage.ts:21-32 | the profile is stored afterwards, the list grows by at most one, and only the profiles change |
| StorageState.DeleteProfile | src/lib/storage.ts:34-44 | a profile remains exactly when it was stored under another id; every remaining history and watchlist row was stored and belongs to another profile; nothing else changes |
| StorageLaws.ProfileLimitAfterDelete | src/lib/storage.ts:374-377 | the limit holds iff there are at least 10 profiles; deleting one of ten lifts it |
| StorageLaws.DeleteProfileLaws | src/lib/storage.ts:34-44 | the profile and all its history and watchlist rows go; other profiles' rows stay; ratings, searches, avatars, pins and attempts are not cascaded |
| StorageLaws.DeleteAllDataLaws | src/lib/storage.ts:3-11 | only the seven keys are emptied; ratings, pins, saved recommendations, attempts, the lock and the hero flags survive |
| StorageLaws.SaveWatchHistoryLaws | src/lib/storage.ts:59-70 | one row per id, the row with h's id is h, other rows keep their order |
| StorageLaws.AddToWatchlistLaws | src/lib/storage.ts:83-101 | (profile, tmdb id) stays unique, adding twice is adding once, the title is listed afterwards |
| StorageLaws.RemoveFromWatchlistLaws | src/lib/storage.ts:93-101 | the title is no longer listed for the profile; every other row stays |
| StorageLaws.SaveRatingLaws | src/lib/storage.ts:143-160 | one rating per (profile, tmdb id, media type), replaced in place; getRating returns the saved one |
| StorageLaws.RemoveProfileDataLaws | src/lib/storage.ts:188-211 | each option acts on the given profile only; with no option nothing changes; history removal does not touch search history |
| StorageLaws.RemoveProfileRowsLaws | src/lib/storage.ts:189-200 | the selected row kinds of that profile go and every other row stays |
| StorageState.RemoveProfileData | src/lib/storage.ts:188-211 | an unselected option leaves its rows (or the profiles) as they were; search history, avatars, pins, attempts and settings never change |
| StorageLaws.RemoveProfileSecurityLaws | src/lib/storage.ts:202-210 | the security option clears the PIN and word of that profile only |
| StorageLaws.WithQueryLaws | src/lib/storage.ts:329-341 | the query first, no other case-insensitive copy, the rest in order, exactly min(20, 1 + the entries kept by the filter) entries, no duplicates kept |
| StorageState.WithQuery | src/lib/storage.ts:333-339 | one to 20 entries, the query first, each later entry taken from the old history and different from the query ignoring case |
| StorageState.AddSearchHistory | src/lib/storage.ts:329-341 | the profile's history starts with the query and holds at most 20; other profiles' histories and every other key are unchanged |
| StorageLaws.WithQueryIdempotent | src/lib/storage.ts:329-341 | the same search twice leaves the history as after once |
| StorageLaws.SearchHistoryLocal | src/lib/storage.ts:329-348 | adding and clearing change only that profile's entry |
| StorageLaws.SearchHistoryEnabledLaws | src/lib/storage.ts:350-363 | the getter reads what the setter wrote (on unless set to false) |
| StorageLaws.ToggledNoDuplicates | src/lib/storage.ts:220-234 | on a duplicate-free list a toggle keeps it duplicate-free and flips membership |
| StorageLaws.ToggledTwice | src/lib/storage.ts:220-234 | two toggles restore the same set of pinned names |
| StorageLaws.ToggledAbsent | src/lib/storage.ts:225-231 | an unpinned name is appended; toggling again gives back the list |
| StorageLaws.TogglePinnedChannelLocal | src/lib/storage.ts:220-234 | only the given profile's list changes |
| StorageLaws.VerifyAccessTokenLaws | src/lib/storage.ts:391-395 | case is ignored and only five-character tokens are accepted |
| StorageLaws.IncrementFailedAttemptsLaws | src/lib/storage.ts:404-415 | the count rises by exactly one; the lock is set from five on; nothing else changes |
| StorageLaws.LockAfterFiveFailures | src/lib/storage.ts:404-423 | after a reset, with the app unlocked, the lock is set exactly when five or more failures follow |
| StorageLaws.ResetFailedAttemptsLaws | src/lib/storage.ts:417-423 | the profile's count reads 0 again; nothing else changes |
| StorageLaws.EffectiveThemeLaws | src/lib/storage.ts:104-121 | the effective theme is never system; it is the stored theme or the system preference |
| StorageLaws.CustomAvatarLaws | src/lib/storage.ts:425-443 | a saved avatar is read back; deleting leaves other profiles' avatars |
| StorageLaws.SavedRecommendationsLaws | src/lib/storage.ts:162-185 | a saved set is listed last for its profile; deleting by id removes only that id |
| Codec.XorInvolution | src/lib/storage.ts:240-243 | the XOR step with key[i mod key length] is its own inverse |
| Codec.XorKeepsBinary | src/lib/storage.ts:238-242 | the key is ASCII, so XOR keeps a unit within a byte exactly when it was |
| Codec.EncryptFailsIffNotBinary | src/lib/storage.ts:237-245 | encryption fails exactly for text with a code unit above 0xFF |
| Codec.DecryptEncrypt | src/lib/storage.ts:237-256 | decryptData(encryptData(s)) == s whenever encryption succeeds |
| Codec.XorLoop | src/lib/storage.ts:251-254 | the indexed loop computes the XOR step |
| Codec.EncryptData | src/lib/storage.ts:237-245 | the loop then btoa |
| Codec.DecryptData | src/lib/storage.ts:247-256 | atob then the loop |
| Base64.EncodeLength | src/lib/storage.ts:244 | four characters per started group of three bytes |
| Base64.Btoa | src/lib/storage.ts:244 | fails exactly when a code unit is above 0xFF |
| Base64.DecodeEncode | src/lib/storage.ts:249 | decoding the encoding gives back the bytes |
| Base64.AtobBtoa | src/lib/storage.ts:244-249 | atob undoes btoa on every string btoa accepts |
| ImportLaws.ImportHistoryLaws | src/lib/storage.ts:294-299 | with fresh ids the rows are appended in order under the new profile, consistency is kept, nothing else changes |
| ImportLaws.ImportWatchlistLaws | src/lib/storage.ts:301-306 | titles listed before stay listed; every imported title is listed under the new profile; only the watchlist changes |
| ImportLaws.ImportRatingsLaws | src/lib/storage.ts:308-313 | titles rated before stay rated; imported titles are rated under the new profile; the last row's rating is stored |
| ImportLaws.GetRatingByKey | src/lib/storage.ts:156-159 | getRating finds a rating exactly when one with that key is stored, and returns it |
| ImportLaws.ImportFailureLaws | src/lib/storage.ts:278-285 | failure exactly for undecryptable text or an envelope without profile or version; a failure writes nothing |
| StorageState.ImportProfileData | src/lib/storage.ts:278-320 | success exactly when the text decrypts and parses to an envelope with a profile and a truthy version; a failure leaves the store as it was |
| ImportLaws.ImportSucceeds | src/lib/storage.ts:278-315 | an accepted envelope is imported and reported as such |
| ImportLaws.ImportEnvelopeLaws | src/lib/storage.ts:287-299 | the profile is saved under the new id, history is appended in order, settings, searches, pins, avatars and attempts are untouched |
| ImportLaws.ImportEnvelopeValid | src/lib/storage.ts:287-313 | a successful import keeps the store consistent |
| ImportLaws.ImportEnvelopeWatchlist | src/lib/storage.ts:301-306 | every imported watchlist title is listed under the new id |
| ImportLaws.ImportEnvelopeRatings | src/lib/storage.ts:308-313 | every imported title is rated under the new id |
| ImportLaws.ExportThenImport | src/lib/storage.ts:259-320 | export then import recreates the profile under the new id with all its watchlist titles; for a non-empty profile id every exported rating reads back under the new id with the same stars and genres; with fresh row ids the history rows are appended, re-keyed, in order |
| ImportLaws.ExportThenImportKeeps | src/lib/storage.ts:259-320 | exporting a profile and importing it under an id no stored profile or row uses leaves that profile and its history, watchlist and ratings exactly as they were |
| ImportLaws.ExportThenImportCopies | src/lib/storage.ts:259-320 | under such an id the new profile is the exported one with the new id, and its history, watchlist and ratings are exactly the exported rows, in order, each re-keyed to the next row id drawn and the new profile |
| ImportLaws.ExportImportAppends | src/lib/storage.ts:259-320 | under such an id the import appends the profile and the re-keyed exported rows to the stored profiles, history, watchlist and ratings |
| ImportLaws.ImportEnvelopeAppends | src/lib/storage.ts:287-313 | under an unused id, with fresh history ids and distinct titles, every section is the stored one followed by the envelope's rows, re-keyed, in order |
| ImportLaws.ImportWatchlistRowsAppend | src/lib/storage.ts:301-306 | addToWatchlist of distinct titles under a profile with no listed row appends them all, in order |
| ImportLaws.ImportRatingRowsAppend | src/lib/storage.ts:308-313 | saveRating of distinct titles under a profile with no rating appends them all, in order |
| Collections.UpsertLaws | src/lib/storage.ts:21-32 | find-then-replace-or-push keeps keys unique, finds x by its key, keeps the others in order, grows iff the key was new |
| Collections.SortDescSorted | src/lib/recommendations.ts:29-32 | the score sort orders best first and is a permutation of its input |
| Collections.SortDescStable | src/lib/recommendations.ts:29-32 | elements of equal score keep their input order |
| Collections.DedupFirst | src/components/HomeView.tsx:176-182 | one element per key, the first one, in input order |
| Text.BlankIffAllSpace | src/components/SmartSearchView.tsx:27 | a trimmed string is empty exactly when all of it is whitespace |
| Text.JoinSplit | src/components/SmartSearchView.tsx:41 | splitting loses nothing: joining the pieces gives back the input |
| Text.SplitJoin | src/components/SmartSearchView.tsx:41-51 | dash-free parts come back from splitting their join |
| Text.ParseIntOfNatToString | src/components/SmartSearchView.tsx:45 | parseInt reads back a printed number |
| Text.IntToStringLaws | src/components/LiveTVView.tsx:29 | number printing is injective and prints only digits and a leading minus |
| ProfileSelector.WrongPinLaws | src/components/ProfileSelector.tsx:109-151 | one more failure; the third locks for 30 s, the 60 s branch is never taken; below three the lock stays and 3-(count+1) attempts remain |
| ProfileSelector.AfterWrongPin | src/components/ProfileSelector.tsx:109-151 | one more failure; from three on the lock is a PIN lock with a deadline after now; a valid lock stays valid |
| ProfileSelector.PinLockoutIsThirtySeconds | src/components/ProfileSelector.tsx:123-129 | every PIN lockout lasts 30 seconds |
| ProfileSelector.ThirdWrongPinLocks | src/components/ProfileSelector.tsx:109-151 | from a fresh lock, two wrong PINs count and the third locks |
| ProfileSelector.WrongWordLaws | src/components/ProfileSelector.tsx:192-213 | the count restarts after PIN failures and continues a word run; the third locks for 60 s |
| ProfileSelector.AfterWrongWord | src/components/ProfileSelector.tsx:192-213 | the lock becomes a security lock; it has a deadline exactly from three failures on, and that deadline lies after now; a valid lock stays valid |
| ProfileSelector.ThirdWrongWordLocks | src/components/ProfileSelector.tsx:192-213 | after any PIN failures, three wrong words lock recovery for 60 s |
| ProfileSelector.PinLockoutAllowsRecovery | src/components/ProfileSelector.tsx:172-180 | only a security-type lock blocks recovery |
| ProfileSelector.ExpireLaws | src/components/ProfileSelector.tsx:40-49 | the poll clears a lock exactly when its deadline has passed, keeping the type |
| ProfileSelector.Expire | src/components/ProfileSelector.tsx:40-49 | the type is kept; a deadline that survives the tick is still running; a running lockout is untouched |
| ProfileSelector.RecoveredPinLaws | src/components/ProfileSelector.tsx:182-190 | success iff the first profile with that exact trimmed word has a PIN, which is revealed |
| ProfileSelector.RecoveredPin | src/components/ProfileSelector.tsx:182-190 | a revealed PIN is non-empty and belongs to a stored profile whose word matches the trimmed entry; no matching word reveals nothing |
| ProfileSelector.RecoveryRevealsAnotherProfilesPin | src/components/ProfileSelector.tsx:182-190 | a shared word reveals the first profile's PIN, whichever profile was locked |
| ProfileSelector.ProfileToSaveLaws | src/components/ProfileSelector.tsx:51-85 | editing changes only name and colour; a new profile has the fresh id and no PIN, word or ads removal |
| ProfileSelector.ProfileToSave | src/components/ProfileSelector.tsx:51-85 | the trimmed name and the chosen colour; an edit keeps id, PIN and word; a new profile has the fresh id and no PIN or word |
| ProfileSelector.Selector.constructor | src/components/ProfileSelector.tsx:19-37 | the stored profiles, no dialog, a fresh lock |
| ProfileSelector.Selector.SelectProfile | src/components/ProfileSelector.tsx:87-96 | a PIN profile opens the dialog on a fresh lock; another is entered |
| ProfileSelector.Selector.RequestDelete | src/components/ProfileSelector.tsx:217-227 | a PIN profile goes through the dialog; another is deleted when confirmed |
| ProfileSelector.Selector.RequestExport | src/components/ProfileSelector.tsx:229-236 | only a PIN profile can be exported, through the dialog |
| ProfileSelector.Selector.SubmitPin | src/components/ProfileSelector.tsx:98-169 | a running lockout changes nothing; otherwise the wrong or right branch |
| ProfileSelector.Selector.WrongPin | src/components/ProfileSelector.tsx:109-151 | the lock after one more failure; on lockout a profile with a word moves to the forgot-PIN dialog |
| ProfileSelector.Selector.RightPin | src/components/ProfileSelector.tsx:155-168 | the lock is reset and exactly the pending action runs |
| ProfileSelector.Selector.SubmitSecurityWord | src/components/ProfileSelector.tsx:171-214 | a security lock blocks; otherwise reveal or count a failure |
| ProfileSelector.Selector.RevealPin | src/components/ProfileSelector.tsx:184-190 | the PIN is shown, the forgot-PIN dialog closes with an empty entry, and the lock is reset |
| ProfileSelector.Selector.WrongWord | src/components/ProfileSelector.tsx:191-213 | the lock after AfterWrongWord, the notice with the lockout or the attempts left, the entry kept |
| ProfileSelector.Selector.Tick | src/components/ProfileSelector.tsx:40-49 | one poll tick: the lock after ExpireLaws' rule |
| ProfileSelector.Selector.ClosePinDialog | src/components/ProfileSelector.tsx:564-568 | the dialog, its entry and the lock are reset |
| ProfileSelector.Selector.ForgotPin | src/components/ProfileSelector.tsx:595-601 | shown only when entering a profile with a security word: switches to the forgot-PIN dialog, keeping the lock; otherwise nothing changes |
| ProfileSelector.Selector.CloseForgotPin | src/components/ProfileSelector.tsx:624-628 | the dialog, its entry and the lock are reset |
| ProfileSelector.Selector.TypePin | src/components/ProfileSelector.tsx:586-590 | the entry holds the digits among the first four characters typed |
| ProfileSelector.Selector.CreateProfile | src/components/ProfileSelector.tsx:51-85 | a blank name does nothing; otherwise the profile and avatar are saved and the list is reloaded |
| ProfileSettings.PasscodeLaws | src/components/HomeView.tsx:224-249 | add needs 4 characters, a matching confirmation and a non-blank word, and stores the untrimmed word; change keeps the word; remove clears both |
| ProfileSettings.PasscodeGatesSelection | src/components/ProfileSelector.tsx:87-96 | after add or change the profile asks for its PIN; after remove it is entered directly |
| ProfileSettings.SavedPinIsFourDigits | src/components/HomeView.tsx:652-667 | a saved PIN is four digits |
| ProfileSettings.WithNameAndColor | src/components/SettingsView.tsx:67-72 | only the name and colour change |
| ProfileSettings.RemoveDataLaws | src/components/HomeView.tsx:338-362 | nothing ticked changes nothing; history also clears the profile's searches; other profiles stay |
| ProfileSettings.ToggleSearchHistoryLaws | src/components/HomeView.tsx:364-371 | the flag flips; turning off empties the searches, turning on keeps them |
| ProfileSettings.ApplyRemoval | src/components/SettingsView.tsx:128-148 | the storage calls of handleRemoveData |
| ProfileSettings.ApplyToggle | src/components/SettingsView.tsx:106-114 | the storage calls of handleToggleSearchHistory |
| HomeView.ContinueWatching | src/components/HomeView.tsx:171-184 | the first row per title, at most ten |
| HomeView.ContinueWatchingLaws | src/components/HomeView.tsx:171-184 | exactly min(10, number of titles) rows: the first rows of the per-title deduplication, one per title, each the earliest of its title, in store order |
| HomeView.IsWatchedLaws | src/components/HomeView.tsx:186-189 | watched exactly when the deduplicated history holds the title |
| HomeView.IsWatched | src/components/HomeView.tsx:186-189 | watched exactly when some history row has that (tmdb id, media type) key |
| HomeView.SeasonWindows | src/components/HomeView.tsx:270-327 | the four disjoint windows, both ends inclusive, and none elsewhere |
| HomeView.SeasonOf | src/components/HomeView.tsx:270-327 | on a real day a popup appears only in February, June, October, November or December, and the summer one exactly in June |
| HomeView.SeasonalKeyInjective | src/components/HomeView.tsx:93-96 | days with the same key share month and date |
| HomeView.SeasonalOncePerDay | src/components/HomeView.tsx:93-96 | after closing, the popup is not considered again on a day with the same key, and is on any other |
| HomeView.Home.constructor | src/components/HomeView.tsx:23-62 | the welcome shows when first_login is true |
| HomeView.Home.Reload | src/components/HomeView.tsx:166-184 | the watchlist and continue-watching rows of the profile |
| HomeView.Home.Open | src/components/HomeView.tsx:86-124 | first login is saved as true and greeted; the seasonal popup opens on an unseen key in a window |
| HomeView.Home.FirstLogin | src/components/HomeView.tsx:86-91 | an undefined first_login is saved as true |
| HomeView.Home.WelcomeClose | src/components/HomeView.tsx:210-215 | first_login is saved as false |
| HomeView.Home.SeasonalClose | src/components/HomeView.tsx:329-336 | the profile remembers today's key |
| HomeView.Home.SaveProfileSettings | src/components/HomeView.tsx:217-222 | the name and colour are saved |
| HomeView.Home.PasscodeAction | src/components/HomeView.tsx:224-254 | a failed check changes nothing; otherwise the profile is saved and the dialog is cleared |
| HomeView.Home.RemoveData | src/components/HomeView.tsx:338-362 | nothing without a ticked box; otherwise the removal and a reload |
| HomeView.Home.ToggleSearchHistory | src/components/HomeView.tsx:364-371 | the stored flag flips; turning off clears the searches; a missing profile is a failure |
| HomeView.Home.AddToWatchlist | src/components/HomeView.tsx:191-203 | a new row for the title, then a reload |
| HomeView.Home.RemoveFromWatchlist | src/components/HomeView.tsx:205-208 | the row goes, then a reload |
| HomeView.Home.ProfileChanged | src/components/HomeView.tsx:23 | the profile prop the shell passes after onProfileUpdate replaces the old one; the screen's own state stays |
| SettingsView.HeroFlagLaws | src/components/SettingsView.tsx:15-29 | a switch reads back what its setter stored; missing or non-'false' text reads as on |
| SettingsView.HeroFlag | src/components/SettingsView.tsx:15-24 | on for a missing key and for any text other than 'false' |
| SettingsView.ToggleKeepsSwitchInStep | src/components/SettingsView.tsx:106-114 | the switch stays equal to the stored flag |
| SettingsView.Settings.constructor | src/components/SettingsView.tsx:33-60 | the switches as read from the store |
| SettingsView.Settings.SaveProfileSettings | src/components/SettingsView.tsx:67-72 | the name and colour are saved |
| SettingsView.Settings.PasscodeAction | src/components/SettingsView.tsx:74-104 | a failed check returns before saving or closing; otherwise save and close |
| SettingsView.Settings.ToggleSearchHistory | src/components/SettingsView.tsx:106-114 | flips switch and flag; turning off clears the searches |
| SettingsView.Settings.HeroAutoplayToggle | src/components/SettingsView.tsx:116-120 | flips the switch and stores 'true' or 'false' |
| SettingsView.Settings.HeroMutedToggle | src/components/SettingsView.tsx:122-126 | flips the switch and stores 'true' or 'false' |
| SettingsView.Settings.RemoveData | src/components/SettingsView.tsx:128-148 | nothing without a ticked box; otherwise the removal and the dialog closed |
| SettingsView.Settings.ProfileChanged | src/components/SettingsView.tsx:33 | the profile prop the shell passes after onProfileUpdate replaces the old one; the screen's own state stays |
| App.BackUndoesPush | src/App.tsx:72-144 | back right after opening a view returns to where it was opened from |
| App.BackIsOneLevel | src/App.tsx:137-144 | after two opens, two backs lead to the middle view and then home |
| App.BackLaws | src/App.tsx:132-144 | back always empties the slot; home and logout clear it |
| App.RenderLaws | src/App.tsx:150-156 | with no profile only the picker is shown |
| App.RefreshedLaws | src/App.tsx:56-64 | the current profile is replaced only by a stored profile with the same id |
| App.Shell.constructor | src/App.tsx:40-43 | the startup animation unless this session has seen it |
| App.Shell.StartupComplete | src/App.tsx:45-49 | the animation ends and the session remembers it |
| App.Shell.SelectProfile | src/App.tsx:51-54 | the profile becomes current and home is shown |
| App.Shell.ProfileUpdate | src/App.tsx:56-64 | the current profile is refreshed from the store |
| App.Shell.Logout | src/App.tsx:66-70 | no profile, the picker, an empty slot |
| App.Shell.Show | src/App.tsx:72-130 | the current view is remembered, then replaced |
| App.Shell.GoHome | src/App.tsx:132-135 | home, with an empty slot |
| App.Shell.Back | src/App.tsx:137-144 | the remembered view, else home |
| Tmdb.ImageUrlLaws | src/lib/tmdb.ts:19-22 | the placeholder exactly for a falsy path; an image URL gives back its path |
| Tmdb.ImageUrl | src/lib/tmdb.ts:19-22 | the placeholder for a falsy path; otherwise the base and size followed by the path itself |
| Tmdb.Encode | src/lib/tmdb.ts:10 | the output holds only unreserved characters and '%'; text of unreserved characters is unchanged |
| Tmdb.FetchUrl | src/lib/tmdb.ts:5-13 | the stem then one encoded pair per parameter, in entry order |
| Tmdb.FetchUrlStart | src/lib/tmdb.ts:5-7 | base and path, then '&' exactly when the path already holds '?' |
| Tmdb.QuerySplits | src/lib/tmdb.ts:9-13 | the appended query splits back into one pair per parameter |
| Tmdb.NoAmpersand | src/lib/tmdb.ts:11 | an encoded value never holds '&' |
| Tmdb.ProviderNamedLaws | src/lib/tmdb.ts:24-50 | a provider is found by its key and only by it |
| Tmdb.EmbedUrlEmpty | src/lib/tmdb.ts:24-50 | only movie and tv have URLs |
| Tmdb.EmbedUrl | src/lib/tmdb.ts:24-50 | live has no URL; a movie or tv URL starts with its provider's template head |
| Tmdb.MovieUrlLaws | src/lib/tmdb.ts:24-50 | a movie URL embeds only the id, injectively |
| Tmdb.TvUrlLaws | src/lib/tmdb.ts:24-50 | a tv URL determines id, season and episode |
| Tmdb.GoDrivePlayerUrlLaws | src/lib/tmdb.ts:53-81 | tv needs no lookup; a movie fails exactly without an IMDb id and otherwise carries it |
| Tmdb.GoDrivePlayerUrl | src/lib/tmdb.ts:53-81 | tv never fails; otherwise failure exactly when the lookup fails or gives no IMDb id; a URL is non-empty |
| PlayerView.EpisodeNavigationLaws | src/components/PlayerView.tsx:91-107 | back one episode, or to episode 20 of the season before; nothing at S1E1; next is unbounded |
| PlayerView.PreviousEpisode | src/components/PlayerView.tsx:91-101 | nothing exactly off tv or at season and episode both at most 1; otherwise an earlier episode of the same title, numbered from 1 |
| PlayerView.NextEpisode | src/components/PlayerView.tsx:103-107 | a request exactly on tv, for the next episode of the same season, which PreviousEpisode undoes |
| PlayerView.PreviousUndoesNext | src/components/PlayerView.tsx:91-107 | previous after next returns to the start |
| PlayerView.ChannelNavigationLaws | src/components/PlayerView.tsx:109-127 | one place without wrapping; an unknown stream has no previous and its next is the first |
| PlayerView.PreviousChannel | src/components/PlayerView.tsx:109-117 | only live playback moves, to a catalogue channel; nothing from the first channel or an unknown stream |
| PlayerView.NextChannel | src/components/PlayerView.tsx:119-127 | only live playback moves, to a catalogue channel; nothing from the last channel; an unknown stream goes to the first |
| PlayerView.PreviousUndoesNextChannel | src/components/PlayerView.tsx:109-127 | with distinct URLs, previous after next returns |
| PlayerView.PlayerUrlLaws | src/components/PlayerView.tsx:33-60 | live shows its stream; otherwise a provider URL, failing only for an unknown server; vidfast by default |
| PlayerView.PlayerUrl | src/components/PlayerView.tsx:33-60 | live never fails; a movie or episode fails exactly for a server key that names no provider |
| PlayerView.HistoryRowLaws | src/components/PlayerView.tsx:63-89 | only movie and tv get a row, with position and duration 0, season and episode for tv only |
| PlayerView.HistoryRow | src/components/PlayerView.tsx:63-89 | a row exactly for movie and tv, with the fresh id, the profile, the title id, position 0 and a season only for tv |
| PlayerView.Player.constructor | src/components/PlayerView.tsx:33-60 | the stored server, then the URL |
| PlayerView.Player.UpdatePlayerUrl | src/components/PlayerView.tsx:39-60 | the URL for the current server and props |
| PlayerView.Player.SelectServer | src/components/PlayerView.tsx:39-60 | remember and store the server, rebuild the URL |
| PlayerView.Player.SaveHistory | src/components/PlayerView.tsx:63-89 | a failed request saves nothing; otherwise the row is saved |
| WatchlistToggle.InWatchlistIffKeyStored | src/lib/storage.ts:98-101 | listed exactly when a stored row has that key |
| WatchlistToggle.ToggleLaws | src/components/SearchView.tsx:186-194 | one press flips membership, keeps other rows and touches only the watchlist |
| WatchlistToggle.Toggle | src/components/SearchView.tsx:186-194 | only the watchlist changes; pressing a listed title leaves no row of it for that profile |
| WatchlistToggle.ApplyToggle | src/components/SearchView.tsx:52-67 | the button's handler; reports whether it added |
| SmartSearchView.LocateLaws | src/components/SmartSearchView.tsx:27-30 | only a blank box asks for an id; the lookup is used only for IMDb ids |
| SmartSearchView.Locate | src/components/SmartSearchView.tsx:27-72 | 'Please enter an ID' exactly for a blank box; a found title has a non-zero id and is a movie or tv; only an IMDb input keeps an IMDb id |
| SmartSearchView.LocateFound | src/components/SmartSearchView.tsx:33-72 | a found title has a non-zero id, season and episode of at least 1; an IMDb id is the first dash piece |
| SmartSearchView.ImdbLookupLaws | src/components/SmartSearchView.tsx:55-61 | a movie match wins; a tv match keeps the episode; no match is 'Could not find content' |
| SmartSearchView.TypedMovieId | src/components/SmartSearchView.tsx:62-71 | digits are found as that movie |
| SmartSearchView.TypedEpisodeId | src/components/SmartSearchView.tsx:62-71 | "id-season-episode" is found as that episode |
| SmartSearchView.PlayerLinkLaws | src/components/SmartSearchView.tsx:84-96 | empty exactly when the server cannot play it; GoDrivePlayer ignores the providers |
| SmartSearchView.PlayerLink | src/components/SmartSearchView.tsx:84-96 | empty for an unknown server other than GoDrivePlayer, and for live |
| SmartSearchView.ReadId | src/components/SmartSearchView.tsx:33-77 | the handler's parsing, step by step |
| SmartSearchView.PlayerUrlFor | src/components/SmartSearchView.tsx:84-96 | the handler's URL choice |
| SmartSearchView.SmartSearch.constructor | src/components/SmartSearchView.tsx:19-23 | an empty box, the default server, the tutorial shown |
| SmartSearchView.SmartSearch.Search | src/components/SmartSearchView.tsx:26-102 | a toast and no change, or the title, its URL and the tutorial hidden |
| SmartSearchView.SmartSearch.AddToWatchlist | src/components/SmartSearchView.tsx:104-124 | nothing before a title is found; otherwise one toggle |
| DetailView.RatingShownAfterReload | src/components/DetailView.tsx:53-62 | after rating, reopening shows the stars just given |
| DetailView.FlagToggleLaws | src/components/DetailView.tsx:108-128 | after a press the flag agrees with the store |
| DetailView.SeasonRowLaws | src/components/DetailView.tsx:375 | each season once, in order; none for a movie |
| DetailView.Detail.constructor | src/components/DetailView.tsx:21-36 | stored rating or 0, the flag from the store, S1E1 |
| DetailView.Detail.LoadDetail | src/components/DetailView.tsx:44-51 | a success replaces the details |
| DetailView.Detail.TitleChanged | src/components/DetailView.tsx:31-36 | another title on the mounted screen: its stored stars if any, else the stars already shown; the flag is read again; details, season and episode carry over |
| DetailView.AsWrittenStaleRating | src/components/DetailView.tsx:53-62 | from a title rated with nonzero stars to an unrated one, the first title's stars stay shown where a fresh screen shows 0 |
| DetailView.CorrectedReloadLaws | src/components/DetailView.tsx:53-62 | clearing the stars before the reload shows what a fresh screen shows; it differs from the reload as written only for an unrated title |
| DetailView.Detail.Rate | src/components/DetailView.tsx:90-106 | save with the current genres, then show |
| DetailView.Detail.ToggleWatchlist | src/components/DetailView.tsx:108-128 | act on the flag, then flip it |
| DetailView.Detail.SelectSeason | src/components/DetailView.tsx:378 | the season becomes selected |
| DetailView.Detail.PlayEpisode | src/components/DetailView.tsx:395-398 | select the episode and play it |
| DetailView.Detail.Play | src/components/DetailView.tsx:230 | play the selected season and episode |
| SearchView.ShownResultsLaws | src/components/SearchView.tsx:39 | exactly the movie and tv results, in order |
| SearchView.RecordedLaws | src/components/SearchView.tsx:34-50 | a query is recorded only when enabled, non-blank and fetched; nothing else changes |
| SearchView.SwitchedOffShowsNothing | src/components/SearchView.tsx:22-23 | with history off nothing is shown, and nothing is erased |
| SearchView.Search.constructor | src/components/SearchView.tsx:14-20 | empty box, no results, dropdown closed |
| SearchView.Search.Type | src/components/SearchView.tsx:25-32 | a blank query clears the results |
| SearchView.Search.SearchContent | src/components/SearchView.tsx:34-50 | closes the dropdown; on success shows and records |
| SearchView.Search.Focus | src/components/SearchView.tsx:90 | opens the dropdown |
| SearchView.Search.PickHistory | src/components/SearchView.tsx:97-102 | the past query fills the box and the dropdown closes |
| SearchView.ListedAtRender | src/components/SearchView.tsx:158 | a shown result is flagged exactly when its id is on the profile's list |
| SearchView.Pressed | src/components/SearchView.tsx:186-191 | a press touches only the watchlist |
| SearchView.PressedLaws | src/components/SearchView.tsx:52-67 | a press right after a render toggles; a second press before the next render keeps an added title listed and a removed one off |
| SearchView.Search.Render | src/components/SearchView.tsx:156-158 | each shown result's flag is read from the store |
| SearchView.Search.PlusButton | src/components/SearchView.tsx:186-191 | removes when the last render flagged the title, adds otherwise, and leaves the flags as they were |
| LiveTvView.CategoriesLaws | src/components/LiveTVView.tsx:23 | 'All', then each category once, in first-appearance order |
| LiveTvView.Categories | src/components/LiveTVView.tsx:23 | 'All' first, then categories of the catalogue in its order |
| LiveTvView.FilteredLaws | src/components/LiveTVView.tsx:25-31 | exactly the channels matching category and query, in order |
| LiveTvView.Filtered | src/components/LiveTVView.tsx:25-31 | exactly the matching channels, in catalogue order |
| LiveTvView.PinnedRowLaws | src/components/LiveTVView.tsx:33-39 | catalogue channels with pinned names, in order; a pin press flips exactly that name |
| LiveTvView.PinnedRow | src/components/LiveTVView.tsx:33-39 | exactly the catalogue channels with a pinned name, in catalogue order |
| LiveTvView.LiveTv.TogglePin | src/components/LiveTVView.tsx:36-39 | toggles the name for the profile and re-renders |
| LiveTvView.LiveTv.PickForMe | src/components/LiveTVView.tsx:41-45 | plays the drawn channel live |
| Recommendations.CollectSeen | src/lib/recommendations.ts:13-19 | the truthy tmdb ids of the watchlist and history |
| Recommendations.SeenIds | src/lib/recommendations.ts:13-19 | every truthy id of the watchlist and history is seen, and 0 never is |
| Recommendations.GenreWeights | src/lib/recommendations.ts:21-27 | each genre's weight is the sum of ratings naming it; keys in first-seen order |
| Recommendations.AddRating | src/lib/recommendations.ts:22-26 | the inner loop adds one rating's genres |
| Recommendations.FirstSeen | src/lib/recommendations.ts:21-27 | each named genre once |
| Recommendations.TopGenresLaws | src/lib/recommendations.ts:29-32 | three rated genres (or all); none left out outweighs one kept |
| Recommendations.TopGenres | src/lib/recommendations.ts:29-32 | at most three genres, all taken from the ranking |
| Recommendations.RankingTies | src/lib/recommendations.ts:29-32 | equal weights keep first-seen order |
| Recommendations.GenreBonus | src/lib/recommendations.ts:55-61 | ten points per top genre of the candidate |
| Recommendations.RankLaws | src/lib/recommendations.ts:50-69 | exactly min(20, number of unseen candidates) entries, drawn without repetition from the scored unseen candidates, best first; all of them when at most 20 |
| Recommendations.RankKeepsBest | src/lib/recommendations.ts:68-69 | nothing dropped scores above anything kept |
| Recommendations.Rank | src/lib/recommendations.ts:50-69 | at most 20 entries, each a scored unseen candidate |
| Recommendations.RecommendNeverSeen | src/lib/recommendations.ts:5-76 | nothing watched or listed is recommended; a failure gives [] |
| Recommendations.Recommend | src/lib/recommendations.ts:5-76 | a failed request recommends nothing; never more than 20 |
| Recommendations.ScoreItem | src/lib/recommendations.ts:53-61 | the callback's loop computes the score |
| Recommendations.TopGenresOf | src/lib/recommendations.ts:21-32 | the top genres from the profile's ratings |
| Recommendations.ScoreUnseen | src/lib/recommendations.ts:50-67 | every unseen candidate scored |
| Recommendations.GenerateRecommendations | src/lib/recommendations.ts:5-76 | the recommendations for the stored profile |
| SurpriseMeWizard.ToggleGenreLaws | src/components/SurpriseMeWizardView.tsx:60-69 | never above three or repeated; selects iff unselected with room; others unchanged |
| SurpriseMeWizard.ToggleGenre | src/components/SurpriseMeWizardView.tsx:60-69 | a selected genre is removed, no other genre changes, and the list grows by at most one |
| SurpriseMeWizard.ToggleRatingLaws | src/components/SurpriseMeWizardView.tsx:71-75 | flips the value, leaves the others, toggling twice restores |
| SurpriseMeWizard.ShortlistLaws | src/components/SurpriseMeWizardView.tsx:81 | exactly the first min(5, number of movie or tv results) of them, in the search's order |
| SurpriseMeWizard.FavoritesLaws | src/components/SurpriseMeWizardView.tsx:88-99 | ids never repeat; adding a new title appends it and removing restores |
| SurpriseMeWizard.AddFavorite | src/components/SurpriseMeWizardView.tsx:88-95 | the old favourites stay first, in order; at most the new title is appended |
| SurpriseMeWizard.QueriesLaws | src/components/SurpriseMeWizardView.tsx:101-132 | three pages per asked kind, then two requests for each of at most two favourites |
| SurpriseMeWizard.Queries | src/components/SurpriseMeWizardView.tsx:101-132 | six requests for both kinds, three for one, plus two for each of at most two favourites |
| SurpriseMeWizard.BuildQueries | src/components/SurpriseMeWizardView.tsx:101-132 | the request loops build those queries |
| SurpriseMeWizard.AsWrittenMislabels | src/components/SurpriseMeWizardView.tsx:136-139 | with both kinds, request 1 (page 2 of the movies, counting requests from 0) is labelled tv and request 4 (page 2 of the shows) movie |
| SurpriseMeWizard.AsWrittenMislabelsFavorite | src/components/SurpriseMeWizardView.tsx:136-139 | in mode 'movie', a TV favourite's /similar list (request 4) is labelled movie |
| SurpriseMeWizard.AsWrittenLabel | src/components/SurpriseMeWizardView.tsx:136-139 | never live; with both kinds tv exactly for an odd request index; otherwise the chosen kind |
| SurpriseMeWizard.GatheredLaws | src/components/SurpriseMeWizardView.tsx:134-148 | a gathered result is exactly result j of list i, labelled with its own media type or else with kinds[i]; a missing list gives nothing |
| SurpriseMeWizard.PoolLabelsByRequest | src/components/SurpriseMeWizardView.tsx:101-148 | the pool is exactly the requests' results, and one without a media type carries its request's kind: the discover kind, or the favourite's own kind |
| SurpriseMeWizard.CorrectedLabels | src/components/SurpriseMeWizardView.tsx:101-148 | with both kinds, a result of request 1 without a media type is pooled as a movie and one of request 4 as a TV show |
| SurpriseMeWizard.CorrectedFavoriteLabel | src/components/SurpriseMeWizardView.tsx:101-148 | in mode 'movie', a result of a TV favourite's /similar list (request 4) without a media type is pooled as a TV show |
| SurpriseMeWizard.Gather | src/components/SurpriseMeWizardView.tsx:134-148 | the loop gives the lists' results in request order, each labelled with its own media type or else its list's kind |
| SurpriseMeWizard.FinalScoreLaws | src/components/SurpriseMeWizardView.tsx:158-173 | between the own score and it plus 50 per genre plus 30 |
| SurpriseMeWizard.SuggestionsLaws | src/components/SurpriseMeWizardView.tsx:150-183 | exactly min(30, number of distinct (id, type) results), best first, no (id, type) twice, each a result of some request labelled with that request's kind; none iff no list returned anything |
| SurpriseMeWizard.BestLaws | src/components/SurpriseMeWizardView.tsx:150-183 | exactly min(30, number of distinct results) suggestions, best first, no (id, type) twice, each scored from a distinct result |
| SurpriseMeWizard.Suggestions | src/components/SurpriseMeWizardView.tsx:150-183 | never more than 30 suggestions |
| SurpriseMeWizard.Wizard.constructor | src/components/SurpriseMeWizardView.tsx:45-55 | the defaults |
| SurpriseMeWizard.Wizard.PressGenre | src/components/SurpriseMeWizardView.tsx:60-69 | the genre toggle |
| SurpriseMeWizard.Wizard.PressRating | src/components/SurpriseMeWizardView.tsx:71-75 | the rating toggle |
| SurpriseMeWizard.Wizard.ChooseMode | src/components/SurpriseMeWizardView.tsx:299 | the mode card |
| SurpriseMeWizard.Wizard.SetYears | src/components/SurpriseMeWizardView.tsx:393-401 | the two sliders |
| SurpriseMeWizard.Wizard.Next | src/components/SurpriseMeWizardView.tsx:275-276 | one step on unless disabled (no genre on 1, no rating on 3) |
| SurpriseMeWizard.Wizard.Back | src/components/SurpriseMeWizardView.tsx:316-322 | one step back |
| SurpriseMeWizard.Wizard.TypeTitle | src/components/SurpriseMeWizardView.tsx:434 | the entry |
| SurpriseMeWizard.Wizard.SearchTitles | src/components/SurpriseMeWizardView.tsx:77-86 | the shortlist popup, or nothing |
| SurpriseMeWizard.Wizard.PickTitle | src/components/SurpriseMeWizardView.tsx:88-95 | a new favourite closes the popup and clears the entry |
| SurpriseMeWizard.Wizard.Unfavorite | src/components/SurpriseMeWizardView.tsx:97-99 | drops that id |
| SurpriseMeWizard.Wizard.Generate | src/components/SurpriseMeWizardView.tsx:101-197 | with suggestions, step 6 and them; else unchanged |
| SurpriseMeWizard.Wizard.AddToWatchlist | src/components/SurpriseMeWizardView.tsx:199-210 | the suggestion's row is added |
| SurpriseMeWizard.Wizard.StartOver | src/components/SurpriseMeWizardView.tsx:552-559 | every default and step 1 |
| ThemeContext.ToggledThemeLaws | src/context/ThemeContext.tsx:36-39 | never system; flips the effective theme whatever the preference; twice restores |
| ThemeContext.ToggledTheme | src/context/ThemeContext.tsx:36-39 | never system, and always the other painted theme |
| ThemeContext.UseTheme | src/context/ThemeContext.tsx:48-54 | a value exactly inside a provider; otherwise the error |
| ThemeContext.Provider.constructor | src/context/ThemeContext.tsx:14-15 | both themes from the store |
| ThemeContext.Provider.Refresh | src/context/ThemeContext.tsx:17-29 | the effective theme is recomputed |
| ThemeContext.Provider.SetTheme | src/context/ThemeContext.tsx:31-34 | the state and the store hold the new theme |
| ThemeContext.Provider.ToggleTheme | src/context/ThemeContext.tsx:36-39 | sets the opposite of the effective theme |
| AccessLockDialog.EntryLaws | src/components/AccessLockDialog.tsx:93-96 | at most five characters, upper case; accepted iff one of the tokens |
| AccessLockDialog.Entry | src/components/AccessLockDialog.tsx:93-96 | the first five characters typed (all of them when fewer), already upper case |
| AccessLockDialog.Dialog.Type | src/components/AccessLockDialog.tsx:93-96 | the entry, cut to five and upper-cased |
| AccessLockDialog.Dialog.Submit | src/components/AccessLockDialog.tsx:21-35 | valid: success, no error; invalid: the error, an empty entry; the store is untouched |
| AccessLockDialog.Dialog.DelayElapsed | src/components/AccessLockDialog.tsx:27-30 | the lock flag is cleared and onUnlock runs |
| AccessLockDialog.Dialog.RequestClose | src/components/AccessLockDialog.tsx:39 | closing changes nothing |
| AccessLockDialog.UnlockLaws | src/lib/storage.ts:383-389 | after unlocking the flag is off and nothing else changed |
| TermsView.PressesLaws | src/components/TermsView.tsx:16-32 | with a callback the count runs modulo 5 and fires once per fifth press; without one it grows and never fires |
| TermsView.Press | src/components/TermsView.tsx:16-23 | the callback runs only when given, and then resets the count; otherwise the count grows by one; with a callback the count stays below five |
| TermsView.Terms.WarningClick | src/components/TermsView.tsx:16-23 | one press on its own counter; the other is unchanged |
| TermsView.Terms.PrivacyClick | src/components/TermsView.tsx:25-32 | one press on its own counter; the other is unchanged |

## Left out

- Network: every TMDB request, the IMDb lookup and the provider pages. Each outcome is a parameter (`Result`/`Option`), and request URL texts other than `tmdbFetch`'s are not modelled (the wizard's genre list, year range and sort).
- JSON text: `JSON.stringify`/`JSON.parse` are parameters (`serialize`, `parse`). Local storage is one typed value per key, not text.
- File download and upload (`Blob`, `FileReader`, anchor clicks), `sessionStorage` beyond the startup flag, and `window.matchMedia`, whose preference is a parameter.
- Clock and timers: `Date.now`, `setInterval`, `setTimeout` and the 300 ms debounce are explicit time parameters or separate steps (`Tick`, `DelayElapsed`).
- Randomness: `generateId` and the random channel pick are parameters.
- Floating point: the recommendation score `vote_average*2 + popularity/100` and the wizard's base score are abstract integers (`base`).
- Text.ToUpper: maps ASCII letters only; JavaScript's full Unicode case mapping is not modelled. The same holds for ToLower.
- ImportLaws.ExportThenImport: the row id a re-imported rating gets is not stated, only that the rating reads back under the new profile with the same title, stars and genres. With an empty profile id the export holds every profile's ratings, which may repeat a title, so that clause is stated for a non-empty id only. ExportThenImportKeeps and ExportThenImportCopies state every row exactly, and that the exported profile is untouched, when the new id is unused by every stored profile and row.
- Importing: a failure after the profile write would leave a partial import; the model's writes cannot fail, so that path is not modelled.
- The PIN lockout's 60-second branch exists in the code but is unreachable, which ProfileSelector.WrongPinLaws proves. The profile limit is never checked when a profile is created, so the model does not enforce it either.
- The live channel catalogue (`src/lib/liveChannels`) is a parameter: that file is not part of this model.
- Rendering, toasts, alerts, confirms and animations; the seasonal poster refresh; the wizard's loading flag.
- React's re-renders are explicit steps that a caller takes after a state change: SearchView.Search.Render recomputes the plus buttons' flags, and HomeView.Home.ProfileChanged and SettingsView.Settings.ProfileChanged take the profile the shell passes again after onProfileUpdate. Both ProfileChanged methods require the id to stay the same, which the shell guarantees (App.RefreshedLaws).
- SettingsView.Settings.constructor: requires a stored profile, because reading the history flag of a missing profile throws.
- Tmdb: season and episode are numbers, and numeric `tmdbFetch` parameters are passed as their decimal text. Lone surrogates in `encodeURIComponent` are not modelled.
- Tmdb.GoDrivePlayerUrlLaws: no view calls `getGoDrivePlayerUrl`.
- PlayerView.Player.SaveHistory: a failed details request is `None`.
- A missing title becomes the empty string. SearchView reads the history switch at the moment of the call.
- Recommendations: a rating without `genres` counts as an empty genre list.
- SurpriseMeWizard.Wizard.Generate: labels results with the corrected kinds (see Findings), not as written. As written, mode 'both' labels by index parity, and a single-kind mode labels every list with the chosen kind: under 'movie' a TV favourite's /similar results are labelled movie, where Generate labels them tv.
- DetailView.Detail.TitleChanged: keeps the rating reload as written (see Findings). The "More Like This" list, the season's episode list and the trailer are fetched results shown as they come and are not modelled, so the method takes no step for the requests the title change starts; LoadDetail is the step for the details request.
- CastDetailView, DevPlayground, SeasonalTestView, SurpriseMeView, AboutView, DownloadAppDialog and StartupAnimation have no rules to model beyond display.
- Cross-tab races on the shared store: concurrency is out of scope.

## Findings

| source | as written | input that shows it | evidently intended | confidence | as-written member | corrected member |
|---|---|---|---|---|---|---|
| src/components/SurpriseMeWizardView.tsx:136-139 | with mode 'both', a result without media_type is labelled movie for an even request index and tv for an odd one | mode 'both', counting requests from 0: request 1 is page 2 of /discover/movie, labelled tv; request 4 is page 2 of /discover/tv, labelled movie | label each result with the kind of list its request fetched | not executed | SurpriseMeWizard.AsWrittenMislabels | SurpriseMeWizard.CorrectedLabels |
| src/components/SurpriseMeWizardView.tsx:136-139 | with mode 'movie' (or 'tv'), every result without media_type gets the chosen kind, including a favourite's /recommendations and /similar lists | mode 'movie' with one TV favourite, counting requests from 0: request 4 is that show's /similar list, labelled movie | label a favourite's lists with the favourite's own kind | not executed | SurpriseMeWizard.AsWrittenMislabelsFavorite | SurpriseMeWizard.CorrectedFavoriteLabel |
| src/components/DetailView.tsx:53-62 | when the screen stays mounted and the title changes, loadUserRating sets the stars only when the new title has a stored rating, so the previous title's stars stay shown | rate title A 4 stars, then open title B, which has no rating, from "More Like This": B shows 4 stars | show 0 stars for a title with no stored rating, as a freshly opened screen does | not executed | DetailView.AsWrittenStaleRating | DetailView.CorrectedReloadLaws |
