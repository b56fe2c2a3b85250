# Study-progress sync core of the HighSchool Pro review app

The application is a Streamlit page over a Firestore database. Users
register and log in. They browse study items by subject and mark each item
"mastered" or "difficult". Those marks are kept in a per-user progress
collection so that they survive across sessions and devices.

This project models the core under the page in Dafny:

- **The remote store** (`firestore.dfy`, module `Firestore`): a collection
  maps document ids to documents, and a document maps field names to values
  (strings or integers). `set(payload, merge)` is `SetDoc`. With merge it
  upserts field by field. Without merge it replaces the document. An
  `Increment(n)` field is the server-side increment transform.
- **Paths** (`paths.dfy`, module `Paths`): `get_user_path`,
  `get_public_path` and the document paths built from them. Lemmas show
  that per-user and public documents never share a path, and that distinct
  users have distinct paths. This is why the store is modelled as one map
  per collection.
- **Progress write and pull** (`progress.dfy`, module `Progress`):
  - The payload of `update_cloud_node` and its merge-write into the user's
    progress collection (`UpdatePayload`, `WriteProgress`).
  - The fold of `sync_user_data` over the stored records, as a method with
    a loop (`CollectFlags`) proved against `FlaggedKeys`.
  - Lemmas that tie a write to the next pull.
- **Accounts** (`auth.dfy`, module `Auth`): the login rule, registration
  with its two guards, and the shared user counter.
- **Dashboard and subjects** (`review.dfy`, module `Review`): the
  per-subject mastered count and the subject list.
- **Session and controller** (`app.dfy`, module `App`):
  - `Database` holds the store's collections.
  - `Session` holds the tab's session state: `logged_in`, `started`,
    `user_contact`, `mastered_points`, `difficult_points`.
  - The `Session` methods `StartLink` and `Logout` model the link page's
    button and logout; `Session.CurrentPhase` is the controller's choice of
    page.
  - Module-level methods model login, registration, entry into the main
    area (with its one-time pull), the difficult button and the mastered
    checkbox.

The md5 digest that names a progress document and the sha256 password hash
are function parameters (`md5`, `hashPwd`). They are not assumed injective.
The session key and the digest input are both the string
`"{subject_id}_{title}"` (`PointKey`). Distinct pairs can join to the same
string: `PointKeyAmbiguous` exhibits `("a_b", "c")` and `("a", "b_c")`. For
the application's own subject ids, which contain no underscore, the key
determines the pair (`SubjectKeysInjective`). The date is an opaque string
parameter.

Two invariants carry the proofs:

- `WellFormed(c, md5)`: every progress record has a subject and a title,
  and sits at the digest of its own key. It holds of an empty collection,
  and every write keeps it (`WriteWellFormed`). So the pull never hits the
  missing-key error on data this application wrote.
- `App.InSync(db, s)`: the session's two sets are the ones a pull would
  build now. It holds after a successful pull. Each toggle keeps it,
  provided the addressed document does not belong to another key (an md5
  collision, `NoCollision`).

Three points about when things happen in app.py:

- Progress is pulled on the first entry into the main area, when the
  session has no `mastered_points` (app.py:180-181), not at login.
- The toggle handlers write to the database first and update the session
  afterwards (app.py:231-232, 236-237, 239-240).
- app.py has no retry, backoff, timeout or admin-provisioning code, so the
  model has none either.

## Model

| member | source | states |
|---|---|---|
| Firestore.SetDoc | app.py:86 | A merge-write adds at most the addressed document and leaves every other document unchanged. Fields in the payload take the written value. With merge, fields not in the payload keep their old values. Without merge, the document holds exactly the payload. |
| Firestore.MergeIdempotent | app.py:86 | Repeating a merge-write of plain values leaves the collection as one write did. |
| Firestore.IncrementMerge | app.py:154 | Merging `{field: Increment(n)}` adds n to an integer field, counts a missing or non-integer field as 0, and keeps every other field. |
| Paths.UserPath | app.py:35 | `get_user_path`: the fixed prefix `artifacts/highschool-pro-prod/users/` followed by exactly the user id, which can be read back from the path. |
| Paths.PublicPath | app.py:36 | `get_public_path`: starts with the application root and then `/p`, so it equals no user path (those continue with `/u`). |
| Paths.UserPathInjective | app.py:35 | Distinct user ids give distinct user paths, so each user's progress is a separate subtree. |
| Paths.AccountPathInjective | app.py:137 | Distinct ids give distinct account documents. |
| Paths.ProgressApartFromPublic | app.py:35-36 | No progress document path equals an account document path or the statistics document path. |
| Paths.StatsApartFromAccounts | app.py:153 | The statistics document is no user's account document. |
| Progress.FlagValue | app.py:84-85 | A supplied flag is sent as 0 or 1, and it is 1 exactly when the flag is true. |
| Progress.PointKey | app.py:81 | The key `f"{sid}_{title}"`: the subject id, one `_`, then the title, each recoverable by position given the subject's length. |
| Progress.UpdatePayload | app.py:83-85 | The payload always carries subject_id, title and update_at. It carries is_mastered iff m is given and is_difficult iff d is given, each coerced to 0/1. It carries no other field and no transform. |
| Progress.WriteProgress | app.py:79-86 | The write targets only the document at md5 of the key, so the collection gains at most that one document and no other document changes. The written document holds the subject, title, date and each supplied flag. Every field not in the payload keeps its old value, e.g. is_difficult when only m is given. |
| Progress.WriteIdempotent | app.py:81-86 | Repeating an identical update_cloud_node leaves the collection unchanged. |
| Progress.WriteKeepsOtherFlag | app.py:84-86 | A write that does not supply a flag leaves that flag of the document as it was, present or absent. |
| Progress.KeyOf | app.py:94 | The key the pull rebuilds from a record; for a record whose subject and title are strings, as every written record's are, it is the same PointKey the write addressed. |
| Progress.FlaggedKeys | app.py:91-96 | The set a pull builds for a flag: a key is in it iff some stored record with that key has the flag equal to 1. |
| Progress.CollectFlags | app.py:88-96 | The pull fails exactly when some record lacks subject_id or title. Otherwise it yields exactly the keys of the records with is_mastered == 1 and exactly those with is_difficult == 1. |
| Progress.FlaggedKeysAt | app.py:91-96 | In a well-formed collection, a key is in a pulled set iff the document at its digest holds that key with the flag at 1. |
| Progress.UnflaggedRecordExcluded | app.py:95-98 | A record whose flag is not 1 keeps its key out of the pulled set. The pull replaces the sets and does not union them. |
| Progress.WriteWellFormed | app.py:83 | A write keeps every record well formed and at the digest of its key, so later pulls can always read subject_id and title (app.py:94). |
| Progress.WriteFlagAt | app.py:79-96 | For one key and one flag after a write: the key is pulled exactly when the session's set, updated with the supplied flag, holds it, unless a different stored key shares the written address. The written collection stays well formed. |
| Progress.WriteFlagPulled | app.py:79-96 | For one flag: after a write, the next pull shows the supplied value for the written key, and keys at other addresses keep their membership. Without a collision, the pulled set changes exactly as the session's set does. |
| Progress.WriteThenPull | app.py:79-98 | For both flags at once: the pulled mastered and difficult sets after a write show each supplied flag for the written key. When the addressed document is absent or already holds the written key (no md5 collision), the pulled sets are the old ones with the written key added, removed or left alone, exactly as supplied. |
| Progress.MasterThenUnmaster | app.py:234-240 | Checking and then unchecking a point leaves its key out of the mastered set the next pull builds. |
| Progress.PointKeyAmbiguous | app.py:81 | Two different (subject, title) pairs can share a key, hence a document and a session entry. |
| Progress.PointKeyInjective | app.py:218 | When neither subject id contains "_", equal keys mean equal subjects and equal titles. |
| Auth.PasswordMatches | app.py:137-138 | The login condition: the account document exists, has a password field, and that field equals hashPwd of the typed key. |
| Auth.UserCount | app.py:195-196 | The registered-user count read from `stats/global`: a missing document or field is 0, an integer field is its value. |
| Auth.AccountPayload | app.py:151 | The account document registration writes: exactly the hashed password and the registration date, as plain values. |
| Auth.Register | app.py:146-154 | An existing id is refused first, and a key shorter than 5 after that. Success overwrites nothing else: it adds exactly the new account with the hashed password and the date, and the user count grows by exactly 1 (a missing count is read as 0); every other field of `stats/global` and every other stats document keeps its value. |
| Auth.RegisterThenLogin | app.py:137-138 | A newly registered account logs in with exactly the keys whose hash equals the registered key's hash. Every other account's login is unchanged. |
| Auth.RegisterTwice | app.py:148 | Registering the same id twice refuses the second attempt, and the count grows by one in all. |
| Review.SubjectsHaveNoUnderscore | app.py:103-107 | No subject id contains "_". |
| Review.SubjectKeysInjective | app.py:218 | For the application's subjects, a point key names exactly one (subject, title) pair. |
| Review.MasteredCount | app.py:206 | The per-subject mastered count m satisfies 0 <= m <= len(d). It equals len(d) iff every item's key is mastered, and is 0 iff none is. |
| Review.MasteredCountMonotone | app.py:206 | Mastering more keys never lowers a subject's count. |
| App.Session.constructor | app.py:161-162 | A fresh session is on the auth page, not logged in or started, with no user and no progress sets. |
| App.Session.CurrentPhase | app.py:165-176 | The controller's dispatch: the auth page iff not logged in, the link page iff logged in and not started, the main area iff both. |
| App.Session.StartLink | app.py:174-175 | The link page's button sets `started` and so enters the main area. Nothing else changes. |
| App.Session.Logout | app.py:188-189 | Logout clears the whole session: the user and both progress sets are gone, and the next render is the auth page. |
| App.BuildUpdateData | app.py:83-85 | Builds the payload field by field, starting from subject_id, title and update_at and adding each supplied flag as 0/1. The result equals UpdatePayload. |
| App.UpdateCloudNode | app.py:79-86 | Builds the payload step by step and merge-writes it. Only the user's progress collection changes, to WriteProgress of the old one, and well-formedness is kept. |
| App.SyncUserData | app.py:88-98 | On success both session sets are replaced by the pulled ones, whatever they held before (InSync). A record lacking a key field leaves the session unchanged. |
| App.EnterMainArea | app.py:176-181 | Entering the main area pulls only when the session has no progress sets yet. Otherwise the session is unchanged. |
| App.Login | app.py:136-142 | Login succeeds iff the account exists and its stored password equals hashPwd(key). Success sets logged_in and user_contact and leads to the link page. Failure changes nothing and pulls nothing. |
| App.RegisterUser | app.py:146-155 | The guards run before any write. A refusal writes nothing. Success writes the account and increments the counter exactly as Register says. Progress is untouched. |
| App.ToggleDifficult | app.py:230-233 | Writes the flipped difficult flag, then flips exactly that key in the difficult set. The mastered set is unchanged. Store validity is kept, and so is InSync when there is no collision. |
| App.MasteredCheckbox | app.py:234-240 | Checking adds the key and unchecking removes it, each after writing the flag. A checkbox that already agrees with the set writes nothing. Store validity and InSync are kept as for the difficult toggle. |

## Left out

- Firestore initialisation from secrets and its fatal error path (app.py:16-31): library setup and `st.stop()`.
- CSS injection, page layout, widget rendering and `st.rerun` (app.py:41-72, 168-175, 183-187): presentation only. The chapter filter of the review view (app.py:213-217) only selects which items are shown.
- Content file I/O, online entry, CSV import and Markdown export (app.py:109-117, 242-293): file and library I/O. The dashboard count takes a subject's item titles as an input sequence.
- Text-to-speech (`speak`, app.py:119-121): it injects browser JavaScript.
- The md5 and sha256 algorithms (app.py:77, 81): they are function parameters. Collisions are allowed, and the consistency results take a no-collision precondition at the written address.
- `date.today()` and the exam countdown (app.py:83, 151, 200): the date is an opaque string parameter, and the countdown is not modelled.
- The dashboard's rendering of the mastered total, the progress ratio and the user count (app.py:195-208): `Auth.UserCount` reads a non-integer `user_count` as 0. The page would show such a value as it is, but the application never writes one.
- Atomicity of `firestore.Increment` under concurrent registrations (app.py:154): it is modelled as a sequential +1. Concurrency between tabs and devices is out of scope.
- Failures of the database client (network errors, permission errors): every store operation succeeds in the model. In the source, a write that raised would abort the script before the session update.
- Path segmentation and invalid document ids: Firestore refuses some ids, and the client raises for them. These include the empty id a blank registration form submits, ids of "." or "..", and ids containing "/", which would address other paths. The model keys collections by plain id strings and accepts every id, so `Register` succeeds on an empty id where the source would fail.
- The `test_queue` session entry (app.py:163): nothing in the modelled core reads it.
- Duplicate widget keys for items with equal titles: a Streamlit rendering error, not modelled.
- Stored floats and booleans: a `Value` is a string or an integer, which is all the application writes.
