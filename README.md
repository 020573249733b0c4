# MASTERSTAV site core, modelled in Dafny

This project models the logic of the MASTERSTAV construction-company website.
It has five parts:

- **Storage guardian** (`storage_manager.dfy`). It turns the platform's storage estimate into a usage
  snapshot and classifies pressure into three tiers. It also runs the soft and
  emergency cleanup tiers. These act on the browser's stores: the persistent
  key-value store, the session store, the named caches and the embedded databases.
- **Admin session** (`admin_context.dfy`). A two-state login/logout machine coupled to
  the `admin_session` store entry.
- **Translation lookup** (`language_context.dfy`). Two constant tables, Czech and German,
  and `t(key)`, which falls back to the key.
- **Reference list editor** (`reference_management.dfy`). The admin's list of portfolio
  entries, mirrored into the `references` store entry, with a draft whose image list is
  capped at four.
- **References page filter** (`references_page.dfy`). The public page's project list,
  filtered by category, with an "all" bypass and an empty-state message.

`seqs.dfy` holds a generic order-preserving `Filter` and the subsequence relation.
`wrappers.dfy` holds `Option`.

Where the source changes state in place, the model is a class:
- `StorageManager.BrowserStorage` holds the four stores;
- `AdminContext.AdminState` holds `isLoggedIn` over a shared `BrowserStorage`;
- `LanguageContext.LanguageState` holds the current language;
- `ReferenceManagement.ReferenceManager` holds the editor's state fields.

Each method's postcondition states the whole new state in terms of pure specification
functions (`Retain`, `Filter`, `Upsert`, `RemoveById`, `AddImage`, ...). The properties the
source promises are lemmas about those functions.

Inputs from the environment are parameters:
- the storage estimate (`Estimate`);
- which cache or database deletions fail (`cacheFails`, `dbFails`);
- the current time used as a new id;
- the answers of the confirm and prompt dialogs.

The public references page uses its own hard-coded list of six projects. It does not
use the list the admin editor stores. The model keeps the two lists separate in the
same way.

Where the code departs from its evident intent, the model follows the code:
- **Empty-string key.** The comment at `src/utils/storage-manager.ts:50` says soft
  cleanup keeps the essential data, and the keep list at line 52 names the three keys.
  The collection loop also tests `key && ...` (line 57), so an empty-string key is never
  collected and stays. `ClearCaches` keeps it too (see Findings for the corrected policy).
- **Hidden keys.** Emergency cleanup lists the keys with `Object.keys(localStorage)`
  (line 192). That call omits a stored key that names a property `localStorage`
  inherits, such as `length` or `toString`, so such a key stays. `EmergencyCleanup`
  keeps it too (see Findings for the corrected policy).
- **Unnamed databases.** Both cleanup tiers test the database name for truthiness
  (lines 112 and 227), so entries with a missing or an empty name are skipped. The
  model skips the same entries.
- **Save guard.** The save button's guard (title, location and description non-empty)
  is only the button's `disabled` attribute. `handleSave` itself does not check it, and
  neither does `HandleSave`.

## Model

| member | source | states |
|---|---|---|
| StorageManager.GetStorageInfo | src/utils/storage-manager.ts:11-31 | There is no snapshot exactly when the estimate is unsupported or fails. A missing quota or usage counts as 0. `available = quota - used` (it may be negative). `percentage * quota = 100 * used` for a positive quota, and the percentage is exactly 0 for a zero quota. |
| StorageManager.PercentageRange | src/utils/storage-manager.ts:15-18 | The percentage is never negative. It is at most 100 while usage is within quota. |
| StorageManager.StorageFullIsDefaultLowSpace | src/utils/storage-manager.ts:41-44 | `isStorageFull()` always equals `isLowSpace(90)`. |
| StorageManager.LowSpaceMonotone | src/utils/storage-manager.ts:178-182 | If `isLowSpace` is true at threshold t, it is true at every lower threshold. |
| StorageManager.LowSpaceFromEstimate | src/utils/storage-manager.ts:178-182 | `isLowSpace(t)` holds iff there is a snapshot and the strict comparison holds. In raw terms that is `100 * usage > t * quota` for a positive quota, and `0 > t` for a zero quota. Without a snapshot it is false. |
| StorageManager.ClassifyIntervals | src/utils/storage-manager.ts:162-170 | A percentage is critical iff > 95, warning iff 80 < p <= 95, and informational iff p <= 80. |
| StorageManager.ClassifyBoundaries | src/utils/storage-manager.ts:162-166 | Exactly 80 is informational and exactly 95 is a warning; values just above each are the next tier up. |
| StorageManager.ClassifyMonotone | src/utils/storage-manager.ts:162-170 | A higher percentage never gives a lower tier. |
| StorageManager.MonitorLevel | src/utils/storage-manager.ts:160-161 | With no snapshot, `monitorStorage` takes no action. |
| StorageManager.TiersAgreeWithStorageFull | src/utils/storage-manager.ts:41-44 | A critical reading also counts as storage full, and storage full is at least the warning tier. |
| StorageManager.MonitorScenarios | src/utils/storage-manager.ts:158-175 | With a 1000-byte quota: 500 used is 50% and informational, and 960 used is 96% and critical. An unsupported or failed estimate gives no level. |
| StorageManager.Pow1024 | src/utils/storage-manager.ts:35 | Every power of 1024 is positive. |
| StorageManager.UnitIndex | src/utils/storage-manager.ts:37 | The unit index i of a positive byte count satisfies 1024^i <= bytes < 1024^(i+1). |
| StorageManager.UnitAsWrittenUndefined | src/utils/storage-manager.ts:36-38 | As written, with the exact index, `sizes[i]` is undefined for every byte count from 1024^5 on. |
| StorageManager.Unit | src/utils/storage-manager.ts:33-38 | The corrected unit is always one of B, KB, MB, GB, TB, and zero bytes gives "B". A count bracketed by 1024^i and 1024^(i+1), for i below 4, gets `sizes[i]`. Every count from 1024^4 on gets TB. |
| StorageManager.UnitIndexUnique | src/utils/storage-manager.ts:37 | The bracketing index is unique, and it is the largest i with 1024^i <= bytes. |
| StorageManager.UnitAgreesBelowPetabyte | src/utils/storage-manager.ts:36-38 | Below 1024^5 bytes, the corrected unit equals the as-written unit at the exact index. The source's floating index differs from the exact one for 1024^5 − 3 to 1024^5 − 1 (see Left out). |
| StorageManager.UnitExamples | src/utils/storage-manager.ts:33-38 | Units for sample inputs: 0 → B, 1023 → B, 1024 → KB, 1536 → KB. |
| StorageManager.PowMonotone | src/utils/storage-manager.ts:37 | Powers of 1024 grow with the exponent. |
| StorageManager.Retain | src/utils/storage-manager.ts:52-68 | The retained store is the old store restricted to the kept keys, with values unchanged. |
| StorageManager.SoftRetainKeepsProtected | src/utils/storage-manager.ts:52-60 | Soft cleanup keeps every present key among `admin_session`, `language` and `theme`, with its value, and removes every other key. |
| StorageManager.SoftRetainIdempotent | src/utils/storage-manager.ts:52-68 | Running soft cleanup twice gives the same store as running it once. |
| StorageManager.EmergencyWithinSoft | src/utils/storage-manager.ts:191-202 | The corrected emergency cleanup keeps at most `admin_session`. Its kept keys are a subset of soft cleanup's. Soft cleanup after emergency cleanup changes nothing, and emergency cleanup after soft cleanup equals emergency cleanup alone. |
| StorageManager.CleanupScenarios | src/utils/storage-manager.ts:52-68 | For a concrete four-key store, soft cleanup drops only the scratch key, and emergency cleanup keeps only the session. |
| StorageManager.EmptyKeySurvivesAsWritten | src/utils/storage-manager.ts:55-60 | As written, an empty-string key survives soft cleanup. The corrected policy removes it. |
| StorageManager.SoftRetainAgreesWithoutEmptyKey | src/utils/storage-manager.ts:55-60 | On a store with no empty-string key, the as-written and the corrected soft cleanup agree. |
| StorageManager.SoftRetainAsWrittenPolicy | src/utils/storage-manager.ts:52-68 | The store `clearCaches` leaves keeps every present protected key with its value and has no other non-empty key. A second run changes nothing. The corrected emergency cleanup keeps a part of it, and the corrected emergency cleanup after it equals that cleanup alone. |
| StorageManager.EmergencyRetainAsWrittenPolicy | src/utils/storage-manager.ts:191-202 | The store `emergencyCleanup` leaves keeps `admin_session` with its value and every present hidden key, and nothing else. A second run changes nothing. After either soft cleanup it leaves exactly what the corrected emergency cleanup leaves. |
| StorageManager.HiddenKeySurvivesEmergency | src/utils/storage-manager.ts:192 | As written, a store holding `length` and `admin_session` keeps both through emergency cleanup. The corrected policy keeps only `admin_session`. |
| StorageManager.EmergencyAgreesWithoutHiddenKeys | src/utils/storage-manager.ts:192 | On a store with no hidden key, the as-written and the corrected emergency cleanup agree. |
| StorageManager.IncludesAt | src/utils/storage-manager.ts:112 | `includes(sub)` holds iff `sub` occurs at some offset of the name. |
| StorageManager.NamesOf | src/utils/storage-manager.ts:111-127 | The names of the named entries; a name is among them iff its entry is listed. |
| StorageManager.NamesOfConcat | src/utils/storage-manager.ts:111-127 | Collecting names distributes over concatenation. |
| StorageManager.SoftSparesEssential | src/utils/storage-manager.ts:111-127 | Soft cleanup never removes a database whose name contains `essential`. The only named databases left are essential ones, one whose name is empty, and those whose deletion failed. |
| StorageManager.EmergencyRemovesAllNamed | src/utils/storage-manager.ts:222-232 | Emergency cleanup leaves only nameless or empty-named entries and failed deletions. What it leaves is an order-preserving part of what soft cleanup leaves. |
| StorageManager.EmptyNameSkipped | src/utils/storage-manager.ts:112 | An entry whose name is the empty string is never a deletion target, in the soft tier (line 112) or the emergency tier (line 227). In a two-entry list, only the non-empty name is attempted, and the empty-named entry stays. |
| StorageManager.SoftTargetsWithinEmergency | src/utils/storage-manager.ts:111-127 | Every soft deletion target is also an emergency target, in the same order. |
| StorageManager.SoftCleanupSettles | src/utils/storage-manager.ts:111-127 | After a fully successful soft database cleanup, a second one has nothing to delete. |
| StorageManager.DeletionStep | src/utils/storage-manager.ts:111-127 | Adding one entry to the database list adds its name to the attempted names iff it is a target. It adds the entry to the survivors iff it survives. |
| StorageManager.BrowserStorage.constructor | src/utils/storage-manager.ts:10 | The four stores start as given. |
| StorageManager.BrowserStorage.RemoveKeysExcept | src/utils/storage-manager.ts:52-68 | The keys are collected first and then removed; the emergency tier (lines 191-202) uses the same method, with the hidden keys added to its keep set because `Object.keys` never lists them. Afterwards the store is the old store restricted to the kept keys. With the truthiness test of the soft loop, an empty-string key is kept as well. |
| StorageManager.BrowserStorage.DeleteAllCaches | src/utils/storage-manager.ts:84-99 | Every cache name is deleted. Only caches whose deletion fails remain, and the other deletions still proceed. |
| StorageManager.BrowserStorage.DeleteDatabases | src/utils/storage-manager.ts:111-127 | For the soft tier and for the emergency tier (lines 222-232), a deletion is issued for every target entry, in list order: named, non-empty, and non-essential when essentials are spared. The survivors are exactly the non-targets and the failed deletions. |
| StorageManager.BrowserStorage.ClearCaches | src/utils/storage-manager.ts:46-103 | The key-value store keeps only the protected keys and an empty-string key, which the loop never collects. The session store is emptied and every cache is deleted. The database list is unchanged. |
| StorageManager.BrowserStorage.CleanupIndexedDB | src/utils/storage-manager.ts:105-135 | Exactly the non-essential databases with a non-empty name are attempted. The survivors are as in `DeleteDatabases` with essentials spared. |
| StorageManager.BrowserStorage.PerformFullCleanup | src/utils/storage-manager.ts:137-155 | The outcome is `clearCaches` followed by `cleanupIndexedDB`, as stated for those two. |
| StorageManager.BrowserStorage.MonitorStorage | src/utils/storage-manager.ts:158-175 | It returns the tier of the snapshot. Only a critical reading changes state, and the change is exactly that of `clearCaches`. Any other reading, or no snapshot, leaves every store unchanged. |
| StorageManager.BrowserStorage.EmergencyCleanup | src/utils/storage-manager.ts:185-243 | Of the keys `Object.keys` lists, only `admin_session` stays in the key-value store; the hidden keys, which it never lists, stay as well. The session store and the caches are cleared. Every database with a non-empty name is attempted, whether essential or not. |
| StorageManager.IsLowSpace | src/utils/storage-manager.ts:178-182 | Definition; its properties are the lemmas `StorageManager.LowSpaceFromEstimate`, `StorageManager.LowSpaceMonotone`. |
| StorageManager.IsStorageFull | src/utils/storage-manager.ts:41-44 | Definition; its properties are the lemmas `StorageManager.StorageFullIsDefaultLowSpace`, `StorageManager.TiersAgreeWithStorageFull`. |
| StorageManager.Classify | src/utils/storage-manager.ts:162-170 | Definition; its properties are the lemmas `StorageManager.ClassifyIntervals`, `StorageManager.ClassifyBoundaries`, `StorageManager.ClassifyMonotone`, `StorageManager.MonitorScenarios`. |
| StorageManager.UnitAsWritten | src/utils/storage-manager.ts:33-38 | Definition; its properties are the lemmas `StorageManager.UnitAsWrittenUndefined`, `StorageManager.UnitAgreesBelowPetabyte`. |
| StorageManager.SoftRetain | src/utils/storage-manager.ts:52-68 | Definition; its properties are the lemmas `StorageManager.SoftRetainKeepsProtected`, `StorageManager.SoftRetainIdempotent`, `StorageManager.EmergencyWithinSoft`. |
| StorageManager.SoftRetainAsWritten | src/utils/storage-manager.ts:55-60 | Definition; its properties are the lemmas `StorageManager.SoftRetainAsWrittenPolicy`, `StorageManager.EmptyKeySurvivesAsWritten`, `StorageManager.SoftRetainAgreesWithoutEmptyKey`. |
| StorageManager.EmergencyRetain | src/utils/storage-manager.ts:191-202 | Definition; its properties are the lemmas `StorageManager.EmergencyWithinSoft`, `StorageManager.EmergencyAgreesWithoutHiddenKeys`. |
| StorageManager.EmergencyRetainAsWritten | src/utils/storage-manager.ts:192 | Definition; its properties are the lemmas `StorageManager.EmergencyRetainAsWrittenPolicy`, `StorageManager.HiddenKeySurvivesEmergency`, `StorageManager.EmergencyAgreesWithoutHiddenKeys`. |
| StorageManager.Includes | src/utils/storage-manager.ts:112 | Definition; its properties are the lemmas `StorageManager.IncludesAt`, `StorageManager.SoftSparesEssential`. |
| StorageManager.IsTarget | src/utils/storage-manager.ts:227 | Definition; its properties are the lemmas `StorageManager.EmptyNameSkipped`, `StorageManager.SoftSparesEssential`, `StorageManager.EmergencyRemovesAllNamed`, `StorageManager.DeletionStep`. |
| AdminContext.AdminState.constructor | src/contexts/admin-context.tsx:14-22 | After mounting, `isLoggedIn` is true iff the stored `admin_session` is exactly `"logged_in"`. |
| AdminContext.AdminState.Login | src/contexts/admin-context.tsx:24-31 | It returns true iff the password is `"223344"`. On success it sets the flag and stores `admin_session = "logged_in"`, and no other key changes. On failure nothing changes. |
| AdminContext.AdminState.Logout | src/contexts/admin-context.tsx:33-36 | It clears the flag and removes only `admin_session`. |
| AdminContext.LoginEstablishesSession | src/contexts/admin-context.tsx:25-28 | The store written by a login carries an active session, and every other key keeps its presence and value. |
| AdminContext.LogoutEndsSession | src/contexts/admin-context.tsx:33-36 | There is no active session after logout, and a second logout changes nothing. |
| AdminContext.SessionSurvivesCleanup | src/contexts/admin-context.tsx:27 | Because both keep lists name `admin_session` (storage-manager.ts lines 52 and 191), an active session stays active after soft cleanup and after emergency cleanup (each both as written and as intended), and after soft followed by emergency cleanup. |
| AdminContext.LoginSurvivesCleanup | src/contexts/admin-context.tsx:16-31 | After a login, soft cleanup and emergency cleanup on the same storage, a newly mounted provider is logged in. The key-value store is the emergency policy applied to the soft policy applied to the logged-in store (both as written), and it has an active session. The session store is empty, only failed caches remain, and the databases are the emergency survivors. |
| AdminContext.SessionActive | src/contexts/admin-context.tsx:16-22 | Definition; its properties are the lemmas `AdminContext.LoginEstablishesSession`, `AdminContext.LogoutEndsSession`, `AdminContext.SessionSurvivesCleanup`. |
| LanguageContext.T | src/contexts/language-context.tsx:171-173 | `t(key)` returns the current language's entry when it exists and is non-empty, and otherwise the key itself. It is total. |
| LanguageContext.TablesShareKeys | src/contexts/language-context.tsx:11-164 | The Czech and German tables define the same keys, and no entry equals its own key. |
| LanguageContext.RoofWorkLabelIsKey | src/contexts/language-context.tsx:172 | `roofWork` is in neither table, so `t('roofWork')` returns the key in both languages. |
| LanguageContext.SampleEntries | src/contexts/language-context.tsx:11-164 | The translations of the page's category names in both languages. |
| LanguageContext.LookupAsWrittenNotText | src/contexts/language-context.tsx:172 | As written, `t('toString')` and `t('constructor')` return an inherited member, not a string. The corrected lookup returns the key. |
| LanguageContext.LookupAgreesElsewhere | src/contexts/language-context.tsx:171-173 | For every key that is not an inherited member name, the as-written lookup returns the corrected lookup's string. |
| LanguageContext.LanguageState.constructor | src/contexts/language-context.tsx:169 | The language starts as `cs`. |
| LanguageContext.LanguageState.SetLanguage | src/contexts/language-context.tsx:169 | `setLanguage` makes the given language current. |
| LanguageContext.Entry | src/contexts/language-context.tsx:172 | Definition; its properties are the lemmas `LanguageContext.TablesShareKeys`, `LanguageContext.RoofWorkLabelIsKey`, `LanguageContext.SampleEntries`. |
| LanguageContext.CsEntry | src/contexts/language-context.tsx:12-87 | Definition of the Czech table; its properties are the lemmas `LanguageContext.TablesShareKeys`, `LanguageContext.SampleEntries`. |
| LanguageContext.DeEntry | src/contexts/language-context.tsx:88-163 | Definition of the German table; its properties are the lemmas `LanguageContext.TablesShareKeys`, `LanguageContext.SampleEntries`. |
| LanguageContext.LanguageState.Translate | src/contexts/language-context.tsx:171-173 | Definition of `t` bound to the provider's language; its properties are those of `LanguageContext.T` and the lemma `LanguageContext.LookupAgreesElsewhere`. |
| LanguageContext.LookupAsWritten | src/contexts/language-context.tsx:171-173 | Definition; its properties are the lemmas `LanguageContext.LookupAsWrittenNotText`, `LanguageContext.LookupAgreesElsewhere`. |
| ReferenceManagement.ReplaceById | src/components/admin/reference-management.tsx:123 | The replaced list has the same length. Every entry with the id becomes the new record, and every other entry keeps its value and position. |
| ReferenceManagement.RemoveImageAt | src/components/admin/reference-management.tsx:150-152 | For an index in range, exactly that position is dropped and the others keep their order. An index out of range changes nothing. |
| ReferenceManagement.UpsertUpdates | src/components/admin/reference-management.tsx:121-124 | Update path of `handleSave`: the length is unchanged, entries with the id become the saved record, and all others stay in place. |
| ReferenceManagement.UpsertAppends | src/components/admin/reference-management.tsx:125-129 | Append path of `handleSave`: the record goes at the end, the length grows by one, and the prefix is unchanged. |
| ReferenceManagement.UpsertIdempotent | src/components/admin/reference-management.tsx:121-129 | After a save the record is in the list, and saving it again changes nothing. |
| ReferenceManagement.UpsertKeepsUniqueIds | src/components/admin/reference-management.tsx:121-129 | Saving keeps the ids unique. |
| ReferenceManagement.RemoveByIdRemoves | src/components/admin/reference-management.tsx:138 | Deleting leaves no entry with the id and keeps every other entry. The result is a subsequence of the list. Deleting an absent id changes nothing. |
| ReferenceManagement.RemoveByIdKeepsOrder | src/components/admin/reference-management.tsx:138 | Deleting splits over concatenation, so the survivors keep their relative order. |
| ReferenceManagement.RemoveByIdKeepsUniqueIds | src/components/admin/reference-management.tsx:138 | Deleting keeps the ids unique. |
| ReferenceManagement.SavedRecordFields | src/components/admin/reference-management.tsx:115-119 | The saved record's images are the draft's. Its cover is the first draft image when that is non-empty, and otherwise the old cover. All other fields come from the entry being edited. |
| ReferenceManagement.AddImageRespectsCap | src/components/admin/reference-management.tsx:143-148 | A URL is appended iff the prompt gave a non-empty answer and the draft holds fewer than four images. A draft within the cap stays within it. |
| ReferenceManagement.NewDraftNotSaveable | src/components/admin/reference-management.tsx:96-110 | A new draft has no images, an empty cover and category `newConstruction`, and it cannot be saved. |
| ReferenceManagement.InitialReferencesWellFormed | src/components/admin/reference-management.tsx:28-56 | The initial list has unique ids, and every entry is within the image cap. |
| ReferenceManagement.CleanupDiscardsStoredReferences | src/components/admin/reference-management.tsx:64-78 | Neither cleanup tier keeps the `references` entry, whether each tier is taken as written or as intended. |
| ReferenceManagement.ReferenceManager.constructor | src/components/admin/reference-management.tsx:59-73 | A stored list becomes the list. Otherwise the initial list is used and written to the store. Afterwards the list and the stored entry agree. |
| ReferenceManagement.ReferenceManager.SaveReferences | src/components/admin/reference-management.tsx:75-78 | It sets the list, after which the list and the stored entry agree. |
| ReferenceManagement.ReferenceManager.HandleEdit | src/components/admin/reference-management.tsx:90-94 | The entry becomes the draft, its images become the draft images, and the form opens. |
| ReferenceManagement.ReferenceManager.HandleAdd | src/components/admin/reference-management.tsx:96-110 | It opens a fresh draft with the given time as its id and with no draft images. Save is disabled. |
| ReferenceManagement.ReferenceManager.EditDraft | src/components/admin/reference-management.tsx:246-302 | The form fields change the draft's texts and category. The id, cover and images stay. |
| ReferenceManagement.ReferenceManager.HandleSave | src/components/admin/reference-management.tsx:112-134 | Without a draft nothing changes. With a draft, the saved record is upserted, the store mirrors the list, and the form closes. |
| ReferenceManagement.ReferenceManager.HandleDelete | src/components/admin/reference-management.tsx:136-141 | A confirmed delete removes the id and saves. An unconfirmed one changes nothing. |
| ReferenceManagement.ReferenceManager.HandleImageAdd | src/components/admin/reference-management.tsx:143-148 | The draft images become `AddImage` of the old ones, so the cap of four holds. |
| ReferenceManagement.ReferenceManager.HandleImageRemove | src/components/admin/reference-management.tsx:150-152 | The draft images lose the position, and the list never grows. |
| ReferenceManagement.ReferenceManager.CloseModal | src/components/admin/reference-management.tsx:232 | The close button (and the cancel button at line 355) hides the form, and nothing else changes. |
| ReferenceManagement.EditSession | src/components/admin/reference-management.tsx:64-141 | After mounting, an edit, a save and a confirmed delete, the list and the store still agree, the ids are unique and the deleted id is gone. |
| ReferenceManagement.HasId | src/components/admin/reference-management.tsx:121 | Definition of the `references.find(r => r.id === editingRef.id)` test; its properties are the lemmas `ReferenceManagement.UpsertUpdates`, `ReferenceManagement.UpsertAppends`, `ReferenceManagement.RemoveByIdRemoves`. |
| ReferenceManagement.ReferenceManager.SaveEnabled | src/components/admin/reference-management.tsx:361 | Definition of the save button's enabled state, inside the `isModalOpen && editingRef` condition of line 225; its properties are stated by `ReferenceManagement.ReferenceManager.HandleAdd`, `ReferenceManagement.ReferenceManager.HandleEdit` and the lemma `ReferenceManagement.NewDraftNotSaveable`. |
| ReferenceManagement.Upsert | src/components/admin/reference-management.tsx:121-129 | Definition; its properties are the lemmas `ReferenceManagement.UpsertUpdates`, `ReferenceManagement.UpsertAppends`, `ReferenceManagement.UpsertIdempotent`, `ReferenceManagement.UpsertKeepsUniqueIds`. |
| ReferenceManagement.RemoveById | src/components/admin/reference-management.tsx:138 | Definition; its properties are the lemmas `ReferenceManagement.RemoveByIdRemoves`, `ReferenceManagement.RemoveByIdKeepsOrder`, `ReferenceManagement.RemoveByIdKeepsUniqueIds`. |
| ReferenceManagement.SavedRecord | src/components/admin/reference-management.tsx:115-119 | Definition; its properties are the lemma `ReferenceManagement.SavedRecordFields`. |
| ReferenceManagement.AddImage | src/components/admin/reference-management.tsx:143-148 | Definition; its properties are the lemma `ReferenceManagement.AddImageRespectsCap`. |
| ReferenceManagement.NewDraft | src/components/admin/reference-management.tsx:96-110 | Definition; its properties are the lemma `ReferenceManagement.NewDraftNotSaveable`. |
| ReferenceManagement.CanSave | src/components/admin/reference-management.tsx:361 | Definition; its properties are the lemmas `ReferenceManagement.NewDraftNotSaveable`, `ReferenceManagement.InitialReferencesWellFormed`. |
| ReferencesPage.AllShowsEverything | src/pages/references.tsx:107-108 | With the "all" selection, the whole list is shown in its own order. |
| ReferencesPage.CategoryShowsExactlyItsProjects | src/pages/references.tsx:109 | Any other selection shows exactly the projects of that category, as a subsequence of the list. |
| ReferencesPage.CategoryFilterKeepsOrder | src/pages/references.tsx:107-109 | The filter splits over concatenation, so relative order is kept. |
| ReferencesPage.FilteredIsSubsequence | src/pages/references.tsx:107-109 | The shown list is always a subsequence of the projects, and no longer than them. |
| ReferencesPage.EmptyStateExactly | src/pages/references.tsx:193 | The empty state shows iff the list is empty (for "all") or no project has the selected category. |
| ReferencesPage.UsedCategoryShowsProjects | src/pages/references.tsx:109 | A category that some project has never shows the empty state. |
| ReferencesPage.EveryButtonShowsProjects | src/pages/references.tsx:11-105 | Each category button has a named witness project of its category, so on the page's list every filter button shows at least one project. |
| ReferencesPage.UnusedCategoryShowsEmptyState | src/pages/references.tsx:193-203 | A category no project has, such as `stoneWork`, shows the empty state. |
| ReferencesPage.NewConstructionProjects | src/pages/references.tsx:107-109 | The new-construction button shows the first and the fourth project, in that order. |
| ReferencesPage.FilteredProjects | src/pages/references.tsx:107-109 | Definition; its properties are the lemmas `ReferencesPage.AllShowsEverything`, `ReferencesPage.CategoryShowsExactlyItsProjects`, `ReferencesPage.CategoryFilterKeepsOrder`, `ReferencesPage.FilteredIsSubsequence`, `ReferencesPage.NewConstructionProjects`. |
| ReferencesPage.ShowsEmptyState | src/pages/references.tsx:193 | Definition; its properties are the lemmas `ReferencesPage.EmptyStateExactly`, `ReferencesPage.UsedCategoryShowsProjects`, `ReferencesPage.UnusedCategoryShowsEmptyState`, `ReferencesPage.EveryButtonShowsProjects`. |
| Seqs.Filter | src/pages/references.tsx:109 | The filtered list is never longer than the input. An element is in it iff it is in the input and satisfies the predicate. |
| Seqs.FilterConcat | src/pages/references.tsx:109 | Filtering distributes over concatenation. |
| Seqs.FilterKeepsAll | src/components/admin/reference-management.tsx:138 | A filter that every element passes changes nothing. |
| Seqs.FilterEmpty | src/pages/references.tsx:193 | A filter's result is empty iff no element passes. |
| Seqs.FilterIdempotent | src/pages/references.tsx:109 | Filtering twice is the same as filtering once. |
| Seqs.FilterIsSubsequence | src/pages/references.tsx:109 | A filter's result is a subsequence of its input. |
| Seqs.FilterStrongerIsSubsequence | src/utils/storage-manager.ts:111-127 | A stronger predicate keeps a subsequence of what a weaker one keeps. |
| Seqs.SubsequenceLength | src/pages/references.tsx:107-109 | A subsequence is no longer than its sequence. |

## Left out

- Platform calls are not modelled, and neither is their failure to enumerate. This covers the storage estimate, the Cache API, `indexedDB.databases` and `deleteDatabase` with their callbacks. The estimate is an `Estimate` parameter, and the stores are fields.
- The presence checks (`'caches' in window`, `'indexedDB' in window`, `'storage' in navigator`) are not modelled. The caches and databases are always present; an absent estimation capability is `Estimate.Unsupported`.
- A failing `localStorage.removeItem` is not modelled: every removal of a key succeeds. Failing cache and database deletions are modelled, as the `cacheFails` and `dbFails` parameters.
- ReferenceManagement.ReferenceManager.SaveReferences, ReferenceManagement.ReferenceManager.constructor, ReferenceManagement.ReferenceManager.HandleSave, AdminContext.AdminState.Login: a failing `localStorage.setItem` is not modelled. `Mirrored()` and the postcondition of `Login` assume that every write to the store succeeds. In the source the write throws `QuotaExceededError` when storage is full (`src/components/admin/reference-management.tsx:71` and `:77`, `src/contexts/admin-context.tsx:27`). Three behaviours are then lost. `saveReferences` has already replaced the in-memory list, so the list and the store disagree. `handleSave` aborts before it closes the form (lines 131-133). `login` has set `isLoggedIn` but stored no session, and the exception reaches its caller.
- StorageManager.BrowserStorage.EmergencyCleanup: the source skips the database step when cache enumeration throws, because both sit in one `try`; the model always performs it, since enumeration failures are left out.
- Concurrency and completion are not modelled. Each cleanup method gives the stores' state once every request it issues has completed, successfully or with an error. The model does not show that the requests complete. A `deleteDatabase` request blocked by an open connection fires neither `onsuccess` nor `onerror` (lines 116-123 and 229-230). Its promise then stays pending, and `await Promise.all` (lines 129 and 225) does not return. `performFullCleanup` runs its two parts concurrently, and the model runs them in sequence. They touch disjoint stores, so the outcome is the same.
- All console output is left out, and so are the module-load timer and the `error`, `storage` and `beforeunload` listeners.
- StorageManager.UnitIndex, StorageManager.UnitAsWritten, StorageManager.UnitAgreesBelowPetabyte: the unit index is the exact floor of the base-1024 logarithm. The source computes it as `Math.floor(Math.log(bytes) / Math.log(k))` in double precision (line 37). Rounding there can give the next index a few bytes below a power of 1024. Just below 1024^5, `Math.log(bytes)` for 1024^5 − 3 to 1024^5 − 1 rounds to the same double as `Math.log(1024 ** 5)`. The quotient is then 5 and `sizes[5]` is undefined, where the model has index 4 and "TB". The model does not capture this double rounding.
- The number part of `formatBytes` (`Math.log`, `toFixed(2)`, `parseFloat`) is floating-point rendering and is left out. So are the `toFixed(1)` percentage strings. Only the zero case and the unit index, in exact arithmetic, are modelled. The estimate's numbers are modelled as exact integers and the percentage as an exact real.
- The stored `references` entry is the list itself (`ReferenceManager.stored`), not its JSON text. Two consequences follow:
  - A stored empty string, which the source treats as absent, is not representable.
  - Unparseable JSON, which would throw in the source, is not representable.
- The `references` entry is a field of the editor, not a key of `BrowserStorage.local`. `CleanupDiscardsStoredReferences` states what the cleanup tiers do to that key.
- The rendering of the editor is not modelled: lists, cards, the modal, icons, and the category `select` options. The form's `onChange` handlers are one method, `EditDraft`.
- The image button being disabled at four images is covered by `AddImage`'s own guard.
- The hard-coded admin password is modelled as a comparison only, not as a security property.
- The rendering of the references page is left out: the cards, the button styling, and the category name shown on each card. The page's selected category is the `selected` parameter of `FilteredProjects`.
- The remaining files are pure UI, network, filesystem or type plumbing with no logic beyond binding, so they are not part of this model. These are the home, contact, login and dashboard pages, the layout and UI components, the protected route, the app shell, `dev-mode.ts`, `image-utils.ts`, `api/avatar.js`, `scripts/clean.js` and `vite-env.d.ts`.
- LanguageContext.TablesShareKeys: a cheaper property is proved instead of "every entry is non-empty", which would need all 118 entries checked in one proof. The tables hold no empty entry, so `T` never falls back for a defined key; this is true of the tables but not proved.

## Findings

| source | as written | input that shows it | evidently intended | confidence | as-written member | corrected member |
|---|---|---|---|---|---|---|
| src/utils/storage-manager.ts:55-60 | The collection loop tests `key && !keysToKeep.includes(key)`, so a key that is the empty string is never collected and survives soft cleanup. | A store holding the key `""` with value `"x"`. | Every key outside `admin_session`, `language` and `theme` is removed. | not executed; the empty string is falsy in JavaScript | StorageManager.EmptyKeySurvivesAsWritten | StorageManager.SoftRetainKeepsProtected |
| src/contexts/language-context.tsx:172 | `translations[language][key] \|\| key` indexes a plain object literal, so a key naming an inherited member returns that member, a function, instead of a string. | `t('toString')` | `t` returns a string for every key, and the key itself when the table has no entry. | not executed; object literals inherit `Object.prototype` | LanguageContext.LookupAsWrittenNotText | LanguageContext.T |
| src/utils/storage-manager.ts:36-38 | `i` is not clamped to the last index of `sizes`. From 1024^5 bytes on, `sizes[i]` is `undefined` and the text ends in "undefined". The floating `Math.log` of line 37 already gives index 5 for 1024^5 − 3 to 1024^5 − 1; the model's exact index does not show this (see Left out). | `formatBytes(2 * 1024 ** 5)` | The largest unit, TB, is used for larger counts. | not executed | StorageManager.UnitAsWrittenUndefined | StorageManager.Unit |
| src/utils/storage-manager.ts:192 | Emergency cleanup enumerates keys with `Object.keys(localStorage)`. A stored key that names a property `localStorage` inherits from `Storage.prototype` or `Object.prototype` is not listed, so it is never removed. | A store holding `length` with value `"x"` and `admin_session` with value `"logged_in"`. | Every key except `admin_session` is removed. | not executed; rests on the named property visibility algorithm of the WebIDL standard, as `Storage` has no `[LegacyOverrideBuiltIns]` | StorageManager.HiddenKeySurvivesEmergency | StorageManager.EmergencyWithinSoft |
