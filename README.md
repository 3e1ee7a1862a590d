# Translation cache, language propagation and form logic of the POS front end, in Dafny

This project models the logic at the centre of a point-of-sale application's
front end, and the parts of its Electron shell that decide something.

- **The on-demand translation cache** (`AutoTranslator`, `auto_translator.dfy`).
  - It holds a table from normalised source text to language to translation.
    The key is the text lower-cased, then trimmed.
  - The table is loaded from one storage slot and written back whole after every miss that was filled.
  - A miss is filled from the provider chain Google, then Microsoft, then Libre, then the text itself, when online.
  - The providers and the storage slot are inputs: a `Reply` per provider, and a `Payload` for the slot.
- **The binding layer** (`smart_translation.dfy`).
  - The page root is a `Document` with its `lang` and `dir` attributes and the live `'languageChanged'` listeners.
    It also tracks the live `lang` attribute observers and every event dispatched.
  - A `Binding` is one mounted `SmartText` (it listens and observes) or one `useSmartPlaceholder` (it only listens).
  - `Hook` is `useSmartTranslation`.
  - The value the translator resolves a text to in Arabic is an input function, `arabic`.
- **The language switcher** (`language_switcher.dfy`), which produces language changes.
- **The Electron shell's language state** (`electron_i18n.dfy`).
- **The SQLite migrator** (`migrate.dfy`).
  - It models which scripts `run_migrations` applies, in which order, and where a run stops.
  - It models which `INSERT OR REPLACE` statements `import_data` issues.
  - Executing a script or a statement is an oracle that says whether it succeeds.
- **The page logic** of the client list (`client_management.dfy`), the user-creation page (`create_user_page.dfy`) and the manager override dialog (`manager_override.dfy`).
- **Shared pieces.** `text.dfy` holds the JavaScript and Python string operations the code relies on. `languages.dfy` holds the two-language set. `wrappers.dfy` holds `Option`.

Objects whose fields the source updates become classes with `modifies` clauses:
- the translator;
- the document and its bindings;
- the hook;
- the language context;
- the Electron i18n state;
- the two forms.

Loops become methods with invariants, each proved against a function that states the plan:
- the migration run (`ApplyInOrder`);
- the row import (`ImportRows`, `ImportData`);
- the event dispatch and the observer delivery.

Filters, lookups and label formatting are functions with lemmas.

When every provider fails, `translate` stores the original text under the key, writes the table to storage and returns the text (`Translator.Translate`).

## Model

| member | source | states |
|---|---|---|
| `AutoTranslation.LoadCache` | frontend/src/i18n/autoTranslator.ts:18-23 | a missing or empty slot gives an empty table, a JSON payload gives its table, and only a malformed payload makes parsing fail |
| `AutoTranslation.Translator.Create` | frontend/src/i18n/autoTranslator.ts:11-23 | construction fails exactly when the stored payload is malformed (the parse error is not caught); otherwise the table is the loaded one, nothing has been called, and reloading storage gives the same table |
| `AutoTranslation.Translator.constructor` | frontend/src/i18n/autoTranslator.ts:8-16 | the translator starts with the loaded table, the given online flag and no provider calls |
| `AutoTranslation.Key` | frontend/src/i18n/autoTranslator.ts:32 | the cache key is no longer than the text and has no white space at either end |
| `AutoTranslation.KeyIgnoresCaseAndPadding` | frontend/src/i18n/autoTranslator.ts:32 | texts that differ only in ASCII letter case or in surrounding white space have the same cache key |
| `AutoTranslation.KeyIdempotent` | frontend/src/i18n/autoTranslator.ts:32 | normalising a key again yields the same key |
| `AutoTranslation.HelloSharesEntry` | frontend/src/i18n/autoTranslator.ts:32 | a worked example of `KeyIgnoresCaseAndPadding`: `"  hello  "` and `"Hello"` share one cache entry |
| `AutoTranslation.Hit` | frontend/src/i18n/autoTranslator.ts:33-35 | a hit is the stored value for that key and language, never empty; a missing key, a missing language or an empty stored value is a miss |
| `AutoTranslation.Put` | frontend/src/i18n/autoTranslator.ts:49-52 | the table gains at most the key; the key's entry gains at most the language, which now holds the value |
| `AutoTranslation.PutThenHit` | frontend/src/i18n/autoTranslator.ts:33-52 | after a write, the written (key, language) entry is a hit with the value unless the value is empty, and every other entry answers as before |
| `AutoTranslation.PutKeepsOthers` | frontend/src/i18n/autoTranslator.ts:49-52 | a write adds at most its key and keeps every other (key, language) value |
| `AutoTranslation.PutKeepsNoSourceEntries` | frontend/src/i18n/autoTranslator.ts:29-52 | writing a non-English entry keeps English out of the table |
| `AutoTranslation.Guard` | frontend/src/i18n/autoTranslator.ts:62-100 | a provider call yields an answer exactly when it resolved to a non-empty string, and then that string; a throw, `null` or the empty string yield none |
| `AutoTranslation.FirstSuccess` | frontend/src/i18n/autoTranslator.ts:44-47 | the position of the first provider with a usable answer: every earlier one gave none, and that one gave one |
| `AutoTranslation.Chain` | frontend/src/i18n/autoTranslator.ts:44-47 | Google's usable answer, else Libre's, else the text; a result that is not the text is never empty |
| `AutoTranslation.Consulted` | frontend/src/i18n/autoTranslator.ts:44-47 | the providers are called in the fixed order, with the original text, up to the first usable answer: one call exactly when Google answers, otherwise all three |
| `AutoTranslation.ChainSteps` | frontend/src/i18n/autoTranslator.ts:44-76 | because Microsoft always yields null, the chain is Google alone when it answers, and otherwise Libre's answer or the text after calling all three |
| `AutoTranslation.Translator.GoOnline` | frontend/src/i18n/autoTranslator.ts:14 | the `online` event sets the flag |
| `AutoTranslation.Translator.GoOffline` | frontend/src/i18n/autoTranslator.ts:15 | the `offline` event clears the flag |
| `AutoTranslation.Translator.ClearCache` | frontend/src/i18n/autoTranslator.ts:99-102 | the table is empty, the storage key is gone, no key is a hit, and storage still agrees with memory |
| `AutoTranslation.Translator.Translate` | frontend/src/i18n/autoTranslator.ts:29-60 | English returns the text; a hit returns the stored value; an offline miss returns the text; all three leave the table, storage and calls unchanged. An online miss calls the chain, stores its result (the text itself when every provider fails) under exactly that key and language, and writes the whole table to storage. If that write throws, the result is the text and storage is unchanged. Write-through persistence is preserved, and so is the absence of English entries |
| `AutoTranslation.TranslateTwice` | frontend/src/i18n/autoTranslator.ts:32-53 | once an online miss has filled an entry, a second translation of the same text returns the same value and calls no provider, whatever the network and providers do |
| `Text.Trim` | frontend/src/i18n/autoTranslator.ts:32 | the trimmed text is empty or starts and ends with a non-white-space character |
| `Text.TrimCuts` | frontend/src/i18n/autoTranslator.ts:32 | what `trim` keeps is a contiguous stretch of the input with only white space on either side |
| `Text.TrimEmpty` | frontend/src/components/ManagerOverrideModal.tsx:36-49 | `trim` yields the empty string exactly when the input is all white space |
| `Text.TrimIgnoresPadding` | frontend/src/i18n/autoTranslator.ts:32 | surrounding white space does not change what `trim` yields |
| `Text.TrimIdempotent` | frontend/src/components/ManagerOverrideModal.tsx:55-59 | trimming twice is trimming once |
| `Text.Lower` | frontend/src/pages/ClientManagement.tsx:178-180 | lower-casing keeps the length and maps every character by the ASCII rule |
| `Text.LowerForgetsCase` | frontend/src/pages/ClientManagement.tsx:178-180 | lower-casing an upper-cased or lower-cased string gives the same result as lower-casing the original |
| `Text.Includes` | frontend/src/pages/ClientManagement.tsx:178-180 | `includes` holds exactly when the substring occurs at some position |
| `Text.IncludesEmpty` | frontend/src/pages/ClientManagement.tsx:178 | every string includes the empty string |
| `Text.ReplaceAll` | frontend/src/pages/CreateUserPage.tsx:167 | every occurrence of the character is replaced and every other character is kept |
| `Text.Split` | frontend/src/pages/CreateUserPage.tsx:150 | a split yields at least one piece and no piece contains the separator |
| `Text.JoinSplit` | frontend/src/pages/CreateUserPage.tsx:150 | joining the pieces of a split with the same separator gives back the string |
| `Languages.ParseLang` | electron/src/i18n.ts:87-91 | a code names a language exactly when it is `"en"` or `"ar"` |
| `Languages.Dir` | frontend/src/components/LanguageSwitcher.tsx:12 | the direction is `rtl` exactly for Arabic and `ltr` otherwise |
| `SmartTranslation.Resolve` | frontend/src/i18n/smartTranslation.tsx:64-95 | a binding shows the Arabic translation for `"ar"`, and its untouched source text for any other language value, including an unknown one |
| `SmartTranslation.Binding.constructor` | frontend/src/i18n/smartTranslation.tsx:62 | a binding first shows its source text |
| `SmartTranslation.Document.Mount` | frontend/src/i18n/smartTranslation.tsx:64-108 | mounting resolves the source against the current `lang` and adds the listener; a `SmartText` also adds the observer, a placeholder does not; live subscriptions stay equal to mounted bindings |
| `SmartTranslation.Document.Unmount` | frontend/src/i18n/smartTranslation.tsx:110-113 | cleanup removes the binding from both listeners and observers, keeping subscriptions equal to mounted bindings |
| `SmartTranslation.Document.WriteLang` | frontend/src/components/LanguageSwitcher.tsx:11 | the attribute is set and an attribute record is queued for the observers |
| `SmartTranslation.Document.WriteDir` | frontend/src/components/LanguageSwitcher.tsx:12 | the `dir` attribute is set |
| `SmartTranslation.Document.Dispatch` | frontend/src/i18n/smartTranslation.tsx:87-95 | exactly one event is recorded, and every live listener resolves against the event's `detail.language`, not the attribute |
| `SmartTranslation.Document.DeliverMutations` | frontend/src/i18n/smartTranslation.tsx:76-100 | after a `lang` write, every observer re-reads the document `lang`; without one, nothing changes |
| `SmartTranslation.Hook.constructor` | frontend/src/i18n/smartTranslation.tsx:9-11 | the hook starts in English and not translating |
| `SmartTranslation.Hook.T` | frontend/src/i18n/smartTranslation.tsx:13-29 | in English or with auto-translation off, `t` returns the text and changes nothing. Otherwise it raises then lowers `isTranslating`, and returns the cached value on a hit; on a miss it returns the chain result when online, or the text. A hit or an offline miss leaves the translator's table, storage and calls unchanged; an online miss stores the chain result under the key, records the provider calls, and writes the table to storage unless that write throws |
| `SmartTranslation.Hook.SwitchLanguage` | frontend/src/i18n/smartTranslation.tsx:38-42 | the hook language, `dir` (`rtl` exactly for Arabic) and `lang` are set; no event is dispatched |
| `SmartTranslation.TSync` | frontend/src/i18n/smartTranslation.tsx:31-36 | `tSync` is the identity in both languages |
| `SmartTranslation.SwitchAndSettle` | frontend/src/i18n/smartTranslation.tsx:38-42 | after the hook's switch and the observer delivery, every `SmartText` follows the new language, while every placeholder keeps what it showed |
| `LanguageSwitching.HandleLanguageChange` | frontend/src/components/LanguageSwitcher.tsx:6-18 | the context language, `lang` and `dir` are set, then exactly one event is added whose `detail.language` is the new code; `lang` already held that code when it was dispatched; every listener has resolved against the new language |
| `LanguageSwitching.ChangeAndSettle` | frontend/src/components/LanguageSwitcher.tsx:6-18 | a switch plus the observer delivery adds exactly one event and leaves every mounted binding, `SmartText` or placeholder, showing its source resolved for the new language |
| `LanguageSwitching.ActiveButtons` | frontend/src/components/LanguageSwitcher.tsx:22-39 | exactly one button is highlighted, the one of the current language |
| `ElectronI18n.Translations` | electron/src/i18n.ts:23-50 | every tray label of either language is non-empty |
| `ElectronI18n.SavedLanguage` | electron/src/i18n.ts:86-91 | the saved value is adopted only when it is `"en"` or `"ar"`; anything else, including an absent key, gives English |
| `ElectronI18n.I18n.constructor` | electron/src/i18n.ts:53-54 | the language starts as English, with no store |
| `ElectronI18n.I18n.SetLanguage` | electron/src/i18n.ts:59-64 | the language is set, and it is persisted only when the store exists |
| `ElectronI18n.I18n.GetCurrentLanguage` | electron/src/i18n.ts:69-71 | accessor: returns the current language |
| `ElectronI18n.I18n.GetTranslations` | electron/src/i18n.ts:76-78 | accessor: returns the label table of the current language |
| `ElectronI18n.I18n.InitializeI18n` | electron/src/i18n.ts:83-97 | the language is the validated saved one; a store that cannot be created gives English |
| `ElectronI18n.SetThenRestart` | electron/src/i18n.ts:59-91 | a language set after initialisation is the language a fresh process initialised from the same store comes up in, and that process's menu labels are that language's table |
| `Migration.UpToFailure` | electron/database/migrate.py:59-82 | the steps a run attempts are a prefix of the plan |
| `Migration.UpToFailureShape` | electron/database/migrate.py:59-85 | a run attempts the whole plan, or stops right after a failing step; every attempted step before the last succeeded; if all steps succeed, the whole plan runs |
| `Migration.UpToFailureSkips` | electron/database/migrate.py:59-82 | a run passes through a stretch of succeeding steps unchanged |
| `Migration.InsertName` | electron/database/migrate.py:50 | insertion keeps the list sorted and adds exactly the one name |
| `Migration.SortNames` | electron/database/migrate.py:50 | `sorted` yields an ascending permutation of its input |
| `Migration.SortedUnique` | electron/database/migrate.py:50 | two ascending orderings of the same names are equal, so the order is fully determined |
| `Migration.SqlFiles` | electron/database/migrate.py:50 | exactly the entries ending in `.sql` are kept, each no more often than listed |
| `Migration.MigrationFiles` | electron/database/migrate.py:50 | the scripts are the `.sql` entries, each as often as listed, in ascending name order |
| `Migration.MigrationFilesChosen` | electron/database/migrate.py:50 | the scripts considered are exactly the `.sql` entries, in ascending order |
| `Migration.Version` | electron/database/migrate.py:60 | the version is the longest prefix without `_`, which ends at the first `_` or at the end of the name |
| `Migration.VersionIsFirstPiece` | electron/database/migrate.py:60 | that prefix is the first piece of `split('_')` |
| `Migration.AppliedVersions` | electron/database/migrate.py:87-94 | the applied set is the set of recorded versions, and empty when the table is missing |
| `Migration.Pending` | electron/database/migrate.py:59-64 | skipping leaves at most as many scripts as there were |
| `Migration.PendingMembers` | electron/database/migrate.py:59-64 | a script is run or attempted exactly when it is a file whose version has not been applied |
| `Migration.PendingSorted` | electron/database/migrate.py:50-64 | skipping applied scripts keeps the remaining scripts in ascending name order |
| `Migration.ApplyInOrder` | electron/database/migrate.py:59-85 | the loop executes the pending scripts in order up to and including the first failure, and reports success exactly when every pending script succeeds |
| `Migration.RunMigrations` | electron/database/migrate.py:45-85 | no `.sql` file means failure with nothing executed; otherwise the sorted pending scripts run up to the first failure, and the result is true exactly when all of them succeed; the scripts executed are in ascending name order |
| `Migration.Columns` | electron/database/migrate.py:222-223 | an unknown table has no columns, and every column listed belongs to the table |
| `Migration.FilterRow` | electron/database/migrate.py:228 | a row keeps exactly its pairs whose key is a column |
| `Migration.Keys` | electron/database/migrate.py:232 | the column list is the kept row's keys in order |
| `Migration.Values` | electron/database/migrate.py:233 | the bound values are the kept row's values in order |
| `Migration.RowStatements` | electron/database/migrate.py:228-236 | a row yields one statement, or none exactly when no key survives the filter |
| `Migration.TableStatements` | electron/database/migrate.py:226-236 | a table yields at most one statement per row |
| `Migration.ImportPlan` | electron/database/migrate.py:217-235 | every planned statement belongs to a table of the import that has rows |
| `Migration.TableWellFormed` | electron/database/migrate.py:226-236 | every statement of a table names that table and at least one column, only columns of that table, and one value per column |
| `Migration.PlanWellFormed` | electron/database/migrate.py:217-236 | every planned statement names at least one column, only columns of its table, and one value per column |
| `Migration.PlaceholderCount` | electron/database/migrate.py:231 | the placeholder list holds one `?` per kept column |
| `Migration.Sql` | electron/database/migrate.py:235 | the statement text starts with `INSERT OR REPLACE INTO`, the table and the opening of the column list, and ends with the closing parenthesis of the value list |
| `Migration.SqlPlaceholders` | electron/database/migrate.py:231-236 | the statement text has exactly one `?` per column, so every value is bound, when no table or column name contains a `?` |
| `Migration.ImportRows` | electron/database/migrate.py:226-236 | a table's rows are executed in order up to and including the first rejected statement |
| `Migration.ImportData` | electron/database/migrate.py:208-248 | tables with no rows are skipped, and the planned statements run in order up to the first rejection. The import succeeds exactly when all are accepted; only then is anything committed |
| `ClientManagement.FilterClients` | frontend/src/pages/ClientManagement.tsx:177-181 | a client is shown exactly when it matches, as many times as it occurs in the list, and the shown list keeps the list's order |
| `ClientManagement.Matches` | frontend/src/pages/ClientManagement.tsx:177-181 | the empty term matches every client, and a term that matches is no longer than the name, the e-mail or the code |
| `ClientManagement.EmptyTermKeepsAll` | frontend/src/pages/ClientManagement.tsx:177-181 | an empty search term keeps every client |
| `ClientManagement.FilterIdempotent` | frontend/src/pages/ClientManagement.tsx:177-181 | filtering the filtered list again with the same term changes nothing |
| `ClientManagement.MatchesIgnoresTermCase` | frontend/src/pages/ClientManagement.tsx:177-181 | the letter case of the search term does not matter |
| `ClientManagement.StatusConfig` | frontend/src/pages/ClientManagement.tsx:151-156 | exactly the four statuses `ACTIVE`, `TRIAL`, `INACTIVE` and `SUSPENDED` have an entry, and each caption is its status's name spelt with the same length and first letter |
| `ClientManagement.StatusBadge` | frontend/src/pages/ClientManagement.tsx:150-158 | a known status gets its own entry and any other status gets the `INACTIVE` entry |
| `ClientManagement.StatusBadgeCaptions` | frontend/src/pages/ClientManagement.tsx:151-158 | the caption is Active, Trial or Suspended exactly for that status, and Inactive for every other status |
| `ClientManagement.VisibleUsage` | frontend/src/pages/ClientManagement.tsx:505-507 | the usage list appears exactly when there are statistics, and it is their first ten rows (all of them when fewer) |
| `ClientManagement.EmptyStateFor` | frontend/src/pages/ClientManagement.tsx:386-405 | the empty card appears exactly when nothing is shown and the list is not loading; with a search term it reads "No clients found" with the hint to adjust the search and no add button; with none it reads "No clients yet" with the hint to add the first client instance and offers the add button |
| `ClientManagement.NoTermEmptyStateMeansNoClients` | frontend/src/pages/ClientManagement.tsx:386-393 | once the list has loaded and without a search term, the empty card appears exactly when there are no clients |
| `CreateUser.RoleColor` | frontend/src/pages/CreateUserPage.tsx:61-71 | every role has a non-empty colour; the slate one goes exactly to the guest role and to unlisted roles |
| `CreateUser.ParseRole` | frontend/src/pages/CreateUserPage.tsx:61-71 | for any values of the enum's members, a role string reads as a role whose value is that string, and as an unlisted role exactly when no member has that value |
| `CreateUser.ParseValueOf` | frontend/src/pages/CreateUserPage.tsx:61-71 | when the members' values are distinct, reading a member's value gives that member back |
| `CreateUser.BadgeLabel` | frontend/src/pages/CreateUserPage.tsx:167 | the badge text is the role with every `_` turned into a space |
| `CreateUser.CapitalizeWords` | frontend/src/pages/CreateUserPage.tsx:150 | reference definition: the first character of the text and every character after a space are upper-cased, and nothing else changes |
| `CreateUser.OptionLabel` | frontend/src/pages/CreateUserPage.tsx:150 | the option text is the reference capitalisation of the badge text |
| `CreateUser.SplitThenCapitalize` | frontend/src/pages/CreateUserPage.tsx:150 | splitting at spaces, capitalising each word and joining equals the reference definition |
| `CreateUser.OptionLabelCapitalizesWords` | frontend/src/pages/CreateUserPage.tsx:150 | the option text has the role's length, turns `_` into spaces and upper-cases exactly the characters that start a word |
| `CreateUser.AllowedRoles` | frontend/src/pages/CreateUserPage.tsx:59 | missing permissions or a missing list give no roles |
| `CreateUser.BadgePanel` | frontend/src/pages/CreateUserPage.tsx:158-172 | for any values of the enum's members, the panel appears exactly when some role is allowed, with one badge per role in order: its colour and its badge text. When the members' values are distinct, a badge gets the slate colour exactly when its role is the guest value or no member's value |
| `CreateUser.CreateUserForm.constructor` | frontend/src/pages/CreateUserPage.tsx:21-29 | the form starts with empty fields, no error, not loading, and nothing sent |
| `CreateUser.CreateUserForm.Submit` | frontend/src/pages/CreateUserPage.tsx:31-57 | without a role: the role message, and no request, loading change or navigation. Otherwise the request is sent with the form's fields and loading ends off. Success clears the error and navigates to the user list; failure shows the server's message or the fallback |
| `ManagerOverride.ValidationError` | frontend/src/components/ManagerOverrideModal.tsx:36-49 | the form passes exactly when no field is all white space; a message is one of the three fixed ones, and the reason-code message means the username and PIN both passed |
| `ManagerOverride.ValidationOrder` | frontend/src/components/ManagerOverrideModal.tsx:36-49 | the form passes exactly when no trimmed field is empty; each message appears exactly when its field is the first empty one, in the order username, PIN, reason code |
| `ManagerOverride.BuildRequest` | frontend/src/components/ManagerOverrideModal.tsx:54-61 | the username, PIN and reason code are sent trimmed, with the session and override type as given; the detail is absent exactly when its trimmed value is empty, and trimmed otherwise |
| `ManagerOverride.ValidatedRequestIsClean` | frontend/src/components/ManagerOverrideModal.tsx:36-61 | a request built after validation passes has non-empty credentials and reason code with no white space at either end, and a detail with none either |
| `ManagerOverride.OverrideModal.constructor` | frontend/src/components/ManagerOverrideModal.tsx:25-30 | the dialog starts with empty fields, no error and not processing |
| `ManagerOverride.OverrideModal.Submit` | frontend/src/components/ManagerOverrideModal.tsx:32-70 | a validation failure sets its message, sends nothing and leaves processing as it was. Otherwise the trimmed request is sent and processing ends off. Success calls `onApproved` and then `onClose` with the error cleared. A failed request shows the server's message or the fixed fallback and calls nothing. If `onApproved` throws, `onClose` is not called and the error's message or the fallback is shown; if `onClose` throws, its message or the fallback is shown. Processing is never left on |

## Left out

- Provider requests are not modelled: request URLs, response JSON shapes and `fetch` itself are network I/O. Each provider's outcome is an input `Reply`: it threw, it returned a string, or it returned null.
- JSON encoding of the cache is not modelled. `JSON.stringify`/`JSON.parse` are left abstract: the storage slot holds a `Payload` that is blank, a table, or malformed.
- `AutoTranslation.LoadCache` does not model a stored payload that is valid JSON but not an object, such as `null` or `5`. The source accepts it as the table. For `null` the next lookup in `translate` throws; other values follow JavaScript's property rules on primitives.
- `Translator.Translate` models a storage write that throws by the `saveFails` input. Other ways the outer `catch` could be reached are not modelled, since nothing else in that block can throw once providers catch their own errors.
- `SmartTranslation.Hook.T` states a hit's value and a miss's result in terms of the translator's state before the call. The call to `Translator.Translate` is made as a synchronous step, so the asynchronous gap between raising and lowering `isTranslating` is not modelled.
- Asynchronous scheduling is not modelled:
  - a binding's `.then(setTranslatedText)` is applied at once, with the translator's answer given by the `arabic` input;
  - `MutationObserver` delivery is a separate `DeliverMutations` step after the synchronous code;
  - races between two quick language switches are left out.
- React rendering, JSX, CSS classes and `useState`/`useEffect` mechanics are not modelled. Only the state changes and the subscription sets are.
- A `SmartText` whose children change is modelled as `Unmount` followed by `Mount` of a binding with the new source, which is what the effect cleanup and re-run amount to.
- AutoTranslation.Translator.Translate: does not model a cache key equal to an inherited object property name such as `constructor` or `__proto__`. The source's table is a plain object: for such a key the hit test reads the inherited property, and the write lands on that property or on the object prototype. `JSON.stringify` then does not save it. The model treats every key as an ordinary table entry that is persisted.
- `Text.Lower` and `Text.Upper` change ASCII letters only. Full Unicode case mapping is library behaviour.
- `ClientManagement.StatusBadge` does not model a status equal to an inherited object property name such as `constructor`. For such a status the source's lookup would return that property instead of falling back.
- `CreateUser.ParseRole` takes the values of the six `UserRole` members as a parameter, because the enum's declaration is not part of this model. Only the badge colours depend on those values being distinct.
- `CreateUser.RoleColor` does not model a role string equal to an inherited object property name such as `constructor`. The source's colour table is a plain object, so such a string would read the inherited property instead of falling back to slate.
- The three migrate.py steps below are not modelled separately: each succeeds or fails as a unit, as the `succeeds` oracle says.
  - reading each script file;
  - `executescript`, which commits any pending transaction itself;
  - the commit.
- `Migration.ImportData` does not model the `PRAGMA foreign_keys` statements or reading the export file. A failure to read the file before any statement runs is not modelled either.
- `Migration.ImportData` does not model a `PRAGMA table_info` that raises, for a table name that does not fit in the statement's text. In the source that raise takes the same rollback path as a rejected insert. `Columns` is total: an unknown table has no columns, which is what SQLite reports for a well-formed name.
- The `connect`, `backup_database`, `restore_database`, `export_data` and `show_database_info` methods of migrate.py are not modelled: they are file and SQLite I/O.
- `Migration.ImportData` models a dictionary's iteration order as the order of the `data` sequence.
- The `sorted`/`split` part of `run_migrations` is modelled by functions (`MigrationFiles`, `Version`). The loop is the `ApplyInOrder` method, and `RunMigrations` adds the empty-directory check and the applied-set read.
- `AutoTranslation.TranslateTwice` states cache-hit idempotence for a second call with the same text. Another text with the same key is covered by `KeyIgnoresCaseAndPadding` together with `PutThenHit`, not by this method.
- The manager override dialog's reason-code option list and placeholders are display data and are not modelled. The reason code is whatever string the form holds.
- The Electron shell's `store.get` is modelled as reading the saved value once the store exists. A store that is created but then throws on `get` is not modelled separately; the `catch` would give English, as a failed creation does.
