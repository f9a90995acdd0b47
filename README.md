# Mentor chat app: state stores, locale and theme resolution

This project models the client-side logic of a mobile chat-mentor app. The app's screens call two zustand stores, and those stores call a hosted identity provider, a document store and a language-model completion API. The project models four pieces:

- **The conversation ("mentor") store**, as the class `MentorStore.MentorStore`. It holds the conversation list, the current conversation, a loading flag and an error string.
  - Creating a conversation seeds it with the system prompt, prepends it and makes it current.
  - Sending a message appends the user turn first, then awaits the completion, then appends the assistant turn. A failed completion leaves the user turn in place.
  - Fetching installs what the remote query returned.
  - Deleting removes entries locally and falls back to another conversation.
  - Two invariants are proved about the actions:
    - the current conversation's identifier appears in the list (`CurrentListed`). Every action keeps it;
    - every conversation starts with the one system message (`EverySeeded`). Every action except `FetchConversations` keeps it. After a fetch it holds exactly when every fetched document starts with the system message and has no other.
- **The authentication store**, as the class `AuthStore.AuthStore`. It covers sign-up, sign-in, sign-out, profile update and profile refresh. Each action's contract states:
  - what changes on success;
  - what is kept on failure;
  - whether the action re-throws, returned as an `Outcome`.
  
  Every action preserves the session invariant "authenticated exactly when a user is stored".
- **Locale resolution** (`Locale` for `i18n/i18n.ts`, `LocaleProvider` for `i18n/I18nProvider.tsx`):
  - A pure map takes the raw device-locale string to one of three languages.
  - A stored preference is checked against the translation table.
  - The provider is a class with these operations: initialisation, the locale setter, the "sync with system language" setter, and the app-state listener.
- **Theme resolution** (`Theme`, for `hooks/useTheme.ts`): the preference (light, dark or system), the active palette, `isDarkMode`, validation of a saved preference, the sync effect, and the two toggles of the profile screen.

External results are parameters of the methods that consume them:
- the signed-in user;
- the completion text, or the value the call threw (`Wrappers.Thrown`, which separates an `Error` object from any other thrown value);
- the fetched documents;
- the outcome of each remote write;
- the raw native locale string;
- the device colour scheme;
- clock readings.

On-device storage (AsyncStorage) is modelled as a key/value class, `Storage.KeyValueStore`. A write can be refused through an `ok` flag, and a read can fail through a `readOk` flag.

Where one might expect otherwise, the model follows the code:
- Selecting an identifier that no conversation has sets the current conversation to null. It is not a no-op (store/mentorStore.ts:76-79).
- "Exactly one leading system message" is guaranteed only for conversations the app creates and extends. Fetched conversations are installed as the remote store returned them. `FetchConversations` states that the invariant then holds exactly when every fetched document satisfies it.
- Whether `updatedAt` is non-decreasing depends on the clock. The model stamps the clock readings it is given.
- `refreshUserProfile` swallows its errors and never re-throws.

Two behaviours of the code are worth knowing, and both are modelled as written:
- `signIn` refreshes the profile before it stores the new user. The refresh therefore reads the user stored before the call, so signing in from a signed-out state leaves the profile as it was (`AuthStore.SignInFromSignedOutKeepsProfile`).
- `deleteConversation` falls back to another conversation only when the old list had more than one entry. When the current conversation is in the list, this gives exactly "the first remaining conversation, or null when none remains" (`MentorStore.DeleteFallsBackToFirstRemaining`).

## Model

| member | source | states |
|---|---|---|
| `Wrappers.CaughtMessage` | store/mentorStore.ts:138-141 | a caught `Error` contributes its message; any other thrown value gives the action's fallback text |
| `Storage.KeyValueStore.GetItem` | i18n/i18n.ts:55 | a read returns a value exactly when the key was written, and then the last string written under it |
| `Storage.KeyValueStore.SetItem` | i18n/i18n.ts:47 | an accepted write binds the key to the value and keeps every other key; a refused write changes nothing |
| `MentorStore.FromDoc` | store/mentorStore.ts:165-169 | a fetched document becomes a conversation whose id is the document id and whose messages and owner are the document's |
| `MentorStore.DecimalString` | store/mentorStore.ts:61 | a clock reading's identifier is a non-empty string of decimal digits with no leading zero |
| `MentorStore.DecimalStringInjective` | store/mentorStore.ts:61 | different clock readings give different conversation identifiers |
| `MentorStore.FindById` | store/mentorStore.ts:77 | the lookup finds nothing exactly when no entry has the id; otherwise it returns the entry at the first index with that id |
| `MentorStore.FirstWithOtherId` | store/mentorStore.ts:219 | the fallback search returns a listed entry with a different id, and returns nothing exactly when every entry has the deleted id |
| `MentorStore.RemoveById` | store/mentorStore.ts:216 | the filtered list holds exactly the entries whose id differs, and is no longer than the input |
| `MentorStore.ReplaceById` | store/mentorStore.ts:103-132 | the map keeps the list's length; with `ReplaceTouchesOnlyThatId`, exactly the entries with the updated id are replaced |
| `MentorStore.FallbackAfterDelete` | store/mentorStore.ts:215-222 | deleting another id keeps current; deleting the current id from a list of at most one entry gives null; a fallback is always a listed entry with another id |
| `MentorStore.AppendTurn` | store/mentorStore.ts:93-124 | one turn appends exactly that message, keeps the old messages as a prefix and the id, title, creation time and owner, and stamps `updatedAt` with the clock |
| `MentorStore.Seeded` | store/mentorStore.ts:37-67 | a conversation is seeded when its first message is the system message and no later message has the system role |
| `MentorStore.Listed` | store/mentorStore.ts:76-79 | the current conversation is null or its id is the id of some listed entry |
| `MentorStore.AllSeeded` | store/mentorStore.ts:46-67 | every listed conversation and the current one are seeded |
| `MentorStore.RemoveConcat` | store/mentorStore.ts:216 | filtering distributes over concatenation, so it keeps the relative order of what it keeps |
| `MentorStore.RemoveAbsentIsIdentity` | store/mentorStore.ts:216 | deleting an id that no entry has leaves the list unchanged |
| `MentorStore.BuildConversations` | store/mentorStore.ts:163-170 | the loop yields one conversation per fetched document, in snapshot order |
| `MentorStore.MentorStore.constructor` | store/mentorStore.ts:46-49 | the store starts with no conversations, none current, not loading, no error |
| `MentorStore.MentorStore.CreateConversation` | store/mentorStore.ts:52-73 | with no user: error 'Usuário não autenticado', and list and current are kept. With a user: exactly one conversation is prepended, with messages `[SYSTEM_MESSAGE]`, the user's uid and the default title when none is given. It becomes current, the other entries keep their order, and both invariants are kept |
| `MentorStore.MentorStore.SelectConversation` | store/mentorStore.ts:76-79 | current becomes the first entry with the id, or null; nothing else changes; afterwards the current conversation is always listed |
| `MentorStore.MentorStore.BeginRequest` | store/mentorStore.ts:90 | before calling out, loading is on and the error is cleared |
| `MentorStore.MentorStore.SendMessage` | store/mentorStore.ts:82-143 | with no current conversation: error 'Nenhuma conversa selecionada', not loading, and list and current are kept. On success: messages are the old messages plus the user turn plus the assistant turn, every entry with the current id is replaced, no error, not loading. On failure: the user turn stays with no assistant turn, the error is the thrown message, not loading. The remote save's outcome affects nothing |
| `MentorStore.MentorStore.FetchConversations` | store/mentorStore.ts:146-184 | with no user nothing changes. On failure the error is recorded and list and current are kept. On success the list is the fetched sequence, current is its first element or null, and there is no error |
| `MentorStore.MentorStore.DeleteConversation` | store/mentorStore.ts:210-234 | every entry with the id is removed; current follows the fallback rule; not loading and no error; both invariants are kept |
| `MentorStore.MentorStore.ClearError` | store/mentorStore.ts:237 | only the error is cleared |
| `MentorStore.NewConversationSeeded` | store/mentorStore.ts:60-67 | a created conversation holds exactly the one system message |
| `MentorStore.SeededAfterTurn` | store/mentorStore.ts:93-124 | appending a turn keeps the old messages as a prefix and keeps the id; a non-system turn preserves the leading system message |
| `MentorStore.ReplaceTouchesOnlyThatId` | store/mentorStore.ts:105-107 | the map replaces exactly the entries with the updated id and leaves the others and every id untouched |
| `MentorStore.ReplaceTwice` | store/mentorStore.ts:103-132 | the two successive replacements in sendMessage equal one replacement with the final conversation |
| `MentorStore.ReplaceKeepsInvariants` | store/mentorStore.ts:103-108 | replacing the current conversation by a same-id update keeps it listed and keeps every conversation seeded |
| `MentorStore.FirstWithOtherIdIsFirstRemaining` | store/mentorStore.ts:216-219 | `find(c => c.id !== id)` on the old list picks the head of the filtered list |
| `MentorStore.DeleteFallsBackToFirstRemaining` | store/mentorStore.ts:215-222 | when the deleted id is the current one and it is listed, current becomes the first remaining entry, or null when none remains |
| `MentorStore.DeleteOtherKeepsCurrent` | store/mentorStore.ts:217-221 | deleting another id leaves current unchanged and still listed |
| `MentorStore.DeleteKeepsInvariants` | store/mentorStore.ts:215-222 | deletion keeps the current conversation listed and every conversation seeded |
| `MentorStore.DeleteExample` | store/mentorStore.ts:212-224 | deleting "1" from ["1", "2"] while "1" is current leaves ["2"] with "2" current |
| `AuthStore.OrElse` | store/authStore.ts:64-65 | JavaScript's logical-or fallback keeps a non-empty string and falls back for an absent or empty one |
| `AuthStore.NewProfile` | store/authStore.ts:62-67 | the profile written at sign-up; `NewProfileShape` states its fields |
| `AuthStore.MergeProfile` | store/authStore.ts:147-151 | `{ ...profile, ...data, lastActive: now }`; `MergeOverrides` states it field by field |
| `AuthStore.RefreshedProfile` | store/authStore.ts:170-188 | the refresh replaces the profile only for a stored user and a found document; `SignInFromSignedOutKeepsProfile` and `RefreshUserProfile` use it |
| `AuthStore.AuthStore.Valid` | store/authStore.ts:26-51 | the session invariant: authenticated exactly when a user is stored, and a profile only with a user |
| `AuthStore.AuthStore.constructor` | store/authStore.ts:47-51 | the store starts signed out, not loading, with no error, satisfying the session invariant |
| `AuthStore.AuthStore.BeginRequest` | store/authStore.ts:56 | before calling out, loading is on and the error is cleared |
| `AuthStore.AuthStore.Fail` | store/authStore.ts:78-84 | the catch block stops loading, records the caught message and re-throws the same value |
| `AuthStore.AuthStore.SignUp` | store/authStore.ts:54-85 | if account creation or the profile write throws: re-throws, records the message, and keeps user, profile and authentication. Otherwise it stores the new user and its fresh profile, is authenticated, not loading, and has no error |
| `AuthStore.AuthStore.SignIn` | store/authStore.ts:88-111 | failure re-throws, records the message, and keeps user, profile and authentication. Success stores the user, authenticates, stops loading, and sets the profile to the refresh of the previously stored user |
| `AuthStore.AuthStore.SignOut` | store/authStore.ts:114-134 | success clears user and profile and deauthenticates; failure re-throws, records the message and keeps them |
| `AuthStore.AuthStore.UpdateProfile` | store/authStore.ts:137-167 | with no profile or no user: throws 'Usuário não autenticado', records it, stops loading and keeps the profile. A failed write re-throws and keeps the profile. Success installs the merged profile. User and authentication never change |
| `AuthStore.AuthStore.RefreshUserProfile` | store/authStore.ts:170-188 | with no user, or a missing or failed read, the profile is kept; a found document replaces it; the error is never touched |
| `AuthStore.AuthStore.ClearError` | store/authStore.ts:191 | only the error is cleared |
| `AuthStore.NewProfileShape` | store/authStore.ts:62-67 | the new profile has the uid as id. Its email is the account's if non-empty, else the given one. Its display name is the given one or '' |
| `AuthStore.MergeOverrides` | store/authStore.ts:147-151 | each of `id`, `email`, `displayName`, `photoURL`, `createdAt`, `interests` and `learningGoals` comes from the patch when the patch supplies it, else from the old profile; `lastActive` is the clock reading |
| `AuthStore.MergeEmptyPatch` | store/authStore.ts:147-151 | an empty patch changes only `lastActive` |
| `AuthStore.MergeComposes` | store/authStore.ts:147-151 | two successive updates equal one update with the combined patch |
| `AuthStore.MergeIdempotent` | store/authStore.ts:147-151 | repeating the same update changes nothing more |
| `AuthStore.SignInFromSignedOutKeepsProfile` | store/authStore.ts:92-102 | from a signed-out store, sign-in's refresh leaves the profile as it was |
| `Locale.IndexOf` | i18n/i18n.ts:24 | the search returns -1 exactly when the character is absent; otherwise the first position holding it |
| `Locale.ReplaceFirst` | i18n/i18n.ts:24 | only the first occurrence changes: the length is kept, a string without the character is unchanged, and only the first position holding it becomes the replacement |
| `Locale.ResolveLocale` | i18n/i18n.ts:31-37 | the prefix test; `ResolveLocaleRules` states its three cases both ways |
| `Locale.InitialLanguage` | i18n/i18n.ts:63-76 | a non-empty stored table key wins, else the device language; `InitialLanguageRoundTrip` and `InitialLanguageFallback` state both cases |
| `Locale.DeviceLanguage` | i18n/i18n.ts:11-38 | the device language is one of the three supported languages; a failed lookup gives en-US; a reported string gives the resolution of that raw string, so the underscore normalisation never matters |
| `Locale.ParseLanguage` | i18n/i18n.ts:66 | a string names a language exactly when it is a key of the translation table, and then it is that language's code |
| `Locale.StoredLanguage` | i18n/i18n.ts:53-61 | a successful read returns a value exactly when the language key was written, and then the written string; a failed read returns nothing |
| `Locale.I18nRuntime.constructor` | i18n/i18n.ts:42 | at load, the global locale is the device language |
| `Locale.I18nRuntime.SetLanguage` | i18n/i18n.ts:44-51 | the locale becomes the language even when the storage write is refused |
| `Locale.I18nRuntime.InitializeLanguage` | i18n/i18n.ts:63-76 | returns the stored language if it is a table key, else the device language, and the global locale equals the value returned |
| `Locale.I18nRuntime.CheckSystemLanguageChanged` | i18n/i18n.ts:78-82 | reports a change exactly when the device language differs from the global locale, with the device language as the new one; nothing is modified |
| `Locale.ResolveLocaleRules` | i18n/i18n.ts:31-37 | pt-BR exactly for a 'pt' prefix, es-ES exactly for an 'es' prefix, en-US otherwise |
| `Locale.FailedLookupIsEnglish` | i18n/i18n.ts:12-37 | a failed native lookup resolves the 'en-US' default to en-US |
| `Locale.NormalisationIsIrrelevant` | i18n/i18n.ts:24-37 | replacing the first '_' with '-' never changes the resolved language |
| `Locale.ResolveCodeFixpoint` | i18n/i18n.ts:31-37 | resolving a supported code gives it back, so the mapping is a fixpoint on its own outputs |
| `Locale.StoredPreferenceValid` | i18n/translations/index.ts:8-12 | a stored string is accepted exactly when it is the code of one of the three languages |
| `Locale.InitialLanguageRoundTrip` | i18n/i18n.ts:44-76 | the code `setLanguage` stores is read back by `initializeLanguage` as the same language |
| `Locale.InitialLanguageFallback` | i18n/i18n.ts:73-75 | a missing or invalid stored value falls back to the device language |
| `LocaleProvider.SyncFlag` | i18n/I18nProvider.tsx:42-44 | sync is on exactly when the stored value is the string 'true' |
| `LocaleProvider.SyncValue` | i18n/I18nProvider.tsx:106 | the string stored for the flag; `SyncValueRoundTrip` reads it back |
| `LocaleProvider.IsBackgrounded` | i18n/I18nProvider.tsx:71 | the previous state counts as backgrounded when it is 'inactive' or 'background' |
| `LocaleProvider.IsRtlCode` | i18n/I18nProvider.tsx:117 | the two-letter prefix test of `isRTL`; `RtlPrefixes` states it for every code |
| `LocaleProvider.I18nProvider.constructor` | i18n/I18nProvider.tsx:31-35 | first render: the global locale, loading, sync off, the device language, and the current app state |
| `LocaleProvider.I18nProvider.SetLocale` | i18n/I18nProvider.tsx:98-101 | global and context locale both become the language; nothing else in the provider changes |
| `LocaleProvider.I18nProvider.Init` | i18n/I18nProvider.tsx:39-62 | with sync on, the locale is the device language; with sync off or a failed read, it is the result of `initializeLanguage`; loading is off on every path, and the context locale equals the global one |
| `LocaleProvider.I18nProvider.SetSyncWithSystem` | i18n/I18nProvider.tsx:104-114 | the flag is set and 'true'/'false' is stored. When turning sync on, system and locale become the device language. When turning it off, or when the write is refused (the call rejects), the locale is kept |
| `LocaleProvider.I18nProvider.OnAppStateChange` | i18n/I18nProvider.tsx:70-84 | only inactive/background to active updates the system language; the locale switches only when sync is on and the language changed; the stored previous state becomes the new state |
| `LocaleProvider.SyncValueRoundTrip` | i18n/I18nProvider.tsx:106 | the stored sync value reads back as the flag that was stored |
| `LocaleProvider.I18nProvider.IsRTL` | i18n/I18nProvider.tsx:117 | the context's `isRTL` is false for every locale the provider can hold |
| `LocaleProvider.NoSupportedLanguageIsRtl` | i18n/I18nProvider.tsx:117 | none of the three supported languages is right-to-left |
| `LocaleProvider.RtlPrefixes` | i18n/I18nProvider.tsx:117 | a code of any length is right-to-left exactly when it starts with 'ar', 'he' or 'fa' |
| `Theme.ParsePreference` | hooks/useTheme.ts:51-52 | a saved value is accepted exactly when it is 'light', 'dark' or 'system', and then it names that preference |
| `Theme.ActiveTheme` | hooks/useTheme.ts:32-37 | an explicit preference picks its palette and 'system' follows the device; `ActiveThemeRules` states it |
| `Theme.IsDarkMode` | hooks/useTheme.ts:67 | dark mode is an explicit 'dark' or 'system' with a dark device; `DarkModeAgreesWithActiveTheme` ties it to the palette |
| `Theme.ToggleThemeTarget` | app/profile.tsx:19-21 | the theme the dark-mode toggle sets; `ToggleThemeFlips` states that it flips the mode |
| `Theme.ToggleSystemTarget` | app/profile.tsx:24-26 | the theme the system toggle sets; `ToggleSystemKeepsMode` states both cases |
| `Theme.ThemeStore.constructor` | hooks/useTheme.ts:17-19 | the initial preference is 'system' and the initial palette is the light theme |
| `Theme.ThemeStore.SetTheme` | hooks/useTheme.ts:20-23 | the preference becomes `t` and is written; the palette is untouched |
| `Theme.ThemeStore.SyncCurrentTheme` | hooks/useTheme.ts:40-45 | afterwards the palette is the active theme; it writes exactly when the palette differed |
| `Theme.ThemeStore.LoadThemePreference` | hooks/useTheme.ts:49-58 | a saved valid preference is applied; an invalid, absent or unreadable one leaves the theme unchanged |
| `Theme.SecondSyncWritesNothing` | hooks/useTheme.ts:40-45 | on any store, after the effect has run once, the palette is the active theme and a second run writes nothing; the preference is kept |
| `Theme.DarkModeAgreesWithActiveTheme` | hooks/useTheme.ts:67 | `isDarkMode` holds exactly when the active theme is the dark palette |
| `Theme.ActiveThemeRules` | hooks/useTheme.ts:32-37 | an explicit preference decides; 'system' is dark exactly when the device reports 'dark' |
| `Theme.PreferenceRoundTrip` | hooks/useTheme.ts:20-22 | a written preference is read back as itself |
| `Theme.ToggleThemeFlips` | app/profile.tsx:19-21 | the dark-mode toggle always flips `isDarkMode` |
| `Theme.ToggleSystemKeepsMode` | app/profile.tsx:24-26 | from 'system', the toggle picks the explicit theme with the same look; from an explicit theme, it returns to 'system' |

## Left out

- Firebase Auth, Firestore and the OpenAI client (services/firebase.ts, services/openai.ts) are vendor SDKs. Their results are method parameters.
- services/openai.ts is not part of this model. This includes:
  - the fallback reply when the completion has no content;
  - the fixed failure message of `getMentorResponse`;
  - the suggestion helper.
  
  The completion parameter is whatever `getMentorResponse` settled with.
- `saveConversationToFirestore` only writes remotely, and its errors are logged and swallowed. Its outcome is a parameter of `SendMessage` that no part of the local state depends on. Two remote gaps, a duplicate document on every save and the missing remote delete, are properties of the remote store.
- AsyncStorage persistence of the two stores (`persist`, `partialize`, rehydration) is done by middleware outside the model. Restored state is arbitrary, which is why the invariants are stated as "kept if they held".
- The transient state while a call is in flight is not modelled. Each action is atomic, so overlapping `sendMessage` calls and other interleavings fall outside the model. The `BeginRequest` step is modelled but is overwritten before the action ends.
- Native locale lookup and console logging: the lookup's result is the `Option<string>` input. On some platforms the lookup chain yields `undefined`, and `getDeviceLanguage` then throws outside its try block; inputs cannot express that case.
- `SignUp` and `SignIn` take no password: it is passed only to the identity provider.
- `UpdateProfile`: a patch whose key is present with the value `undefined` is not modelled; a patch either supplies a field or omits it.
- The translator's `t`, its fallback settings, the language list and all translation strings are UI text.
- Screens, components and theme palettes are presentation. The non-empty-content and not-loading guards of the chat screen live in the UI, so the store accepts any content.
- babel.config.js is build configuration.
