# Case-management backend, modelled in Dafny

This project models the request handlers of a small case-management web
service. The service keeps participants (the people being supported), their
case notes, the services delivered to them, and their referrals to employers
and providers. Staff sign in with a bearer token; an admin role guards the
creation of employers and providers. The handlers come in several
overlapping variants (`participants.py`, `nested.py`, `more.py`,
`employers.py`, `providers.py`, `employers_providers.py`). Each variant is
modelled on its own, and the differences between them are stated as lemmas
instead of being reconciled. The front-end helper that prefixes API paths
and builds request headers (`frontend/api.js`) is modelled too.

How the model is built:

- **The database** is a `Models.Store` class with one sequence per table.
  Row `i` has id `i + 1`: ids are fresh and dense, as SQLite assigns them
  when nothing is ever hard-deleted.
- **Handlers.** A handler that changes the store is a method with
  `modifies s`. Its `ensures` gives the whole new state (`s.State()`) in
  terms of a pure function that builds the new row (`NewParticipant`,
  `Patch`, `NewNote`, `NewReferral`, …). The properties are proved about
  those functions. Read-only handlers are functions with `reads s`, except
  nested.py's referral listing, whose row-building loop is a method that
  changes nothing.
- **Replies.** A reply is `Data(code, value)` or `Message(code, msg)`.
- **Request bodies** are JSON objects (`map<string, Value>`), handled with
  Python's semantics:
  - truthiness;
  - `dict.get`;
  - `x or y`;
  - `(x or "").strip()`. On a truthy non-string this raises, and the model
    gives a 500.
- **Credentials.** `NoToken`, a token the library rejects, or a valid
  `Bearer` token with its claims.
- **Date parsing** (`datetime.fromisoformat`) is a parameter of type
  `DateParser`.
- **Timestamps** (`utcnow`) are integers supplied by the caller.
- **Participants** carry an `is_active` flag. `models.py` does not declare
  it, but `participants.py` reads and writes it.
- **SQLite semantics:**
  - `ORDER BY` on text is the BINARY collation, i.e. lexicographic order of
    code points (`Text.StrLe`);
  - `ilike` is SQLite's `LIKE`: ASCII case folding, with `%` and `_` in the
    pattern as wildcards (`Text.Like`);
  - ties in `ORDER BY` keep id order (a stable sort).

Where the code and the design description disagree, the model follows the
code:

- The participant list has no pagination.
- There is no email format check.
- PUT stores accepted names untrimmed.
- nested.py does not check that the participant exists before inserting a
  note, service or referral.
- more.py stores both org ids of a referral without a `kind` check.

## Model

| member | source | states |
|---|---|---|
| Utils.RolesRequired | backend/utils.py:4-14 | the request is let through iff it has a valid token whose `role` claim is a string among `roles`; an invalid or missing token gets the token check's refusal, checked before the role; a valid token without the role gets 403 "Forbidden" |
| Utils.AdminOnly | backend/utils.py:10 | `roles_required('admin')` admits exactly the valid tokens whose role is "admin"; a missing role (None) is never admitted |
| Utils.MoreRolesAllowMore | backend/utils.py:10 | widening the role list never refuses a request that was admitted |
| Http.JwtRequired | backend/utils.py:7 | a valid token always passes and a rejected one never does; a missing token passes only when the token is optional, and gets a 401 otherwise |
| Text.Strip | backend/routes/participants.py:20 | Python `str.strip()`: the result neither starts nor ends with whitespace, is no longer than the input, and is empty iff the input is all whitespace |
| Text.StripDropsOnlySurroundingSpace | backend/routes/participants.py:20 | the stripped text is the slice of the input after its leading whitespace, and all that follows the slice is whitespace: only surrounding whitespace is removed |
| Text.StripIdempotent | backend/routes/participants.py:20 | stripping twice is stripping once |
| Text.SearchIsContainment | backend/routes/employers.py:19 | for a query without `%` or `_`, `name ilike '%q%'` holds iff the name contains `q` ignoring ASCII case |
| Text.SearchFindsContaining | backend/routes/employers.py:19 | every name containing `q` (ignoring ASCII case) matches `'%q%'`, whatever `q` holds |
| Text.UnderscoreIsNotLiteral | backend/routes/providers.py:19 | `_` in the query is a wildcard: the query "_" matches a name that does not contain "_" |
| Text.StrLeTotal | backend/routes/participants.py:63 | the BINARY collation compares any two strings |
| Text.StrLeTransitive | backend/routes/participants.py:63 | the BINARY collation is transitive |
| Queries.NotesOf | backend/routes/nested.py:10 | `filter_by(participant_id=pid).order_by(created_at.desc())`: exactly the participant's notes, each as often as stored, newest first |
| Queries.ServicesOf | backend/routes/nested.py:24 | exactly the participant's services, each as often as stored, most recently provided first |
| Queries.ReferralsOf | backend/routes/nested.py:68 | exactly the participant's referrals, each as often as stored, most recent first |
| Queries.CapKeepsNewest | backend/routes/more.py:16-19 | `.limit(200)` on notes keeps everything when there are at most 200 rows, and otherwise keeps rows no older than any it drops |
| Queries.CapKeepsNewestServices | backend/routes/more.py:42-45 | the same for services by `provided_at` (also nested.py:24) |
| Queries.CapKeepsNewestReferrals | backend/routes/more.py:70-73 | the same for referrals by `referred_at` |
| Queries.NotesOfAppend | backend/routes/participants.py:168-170 | storing a note of participant `pid` adds exactly that note to the participant's notes |
| Queries.ServicesOfAppend | backend/routes/participants.py:195-196 | storing a service adds exactly that service to the participant's services |
| Queries.ReferralsOfAppend | backend/routes/participants.py:225-226 | storing a referral adds exactly that referral to the participant's referrals |
| Models.FindOrg | backend/routes/participants.py:37 | `db.session.get(Employer, id)`: the found row has that id; None means no row has it |
| Models.Store.ParticipantById | backend/routes/participants.py:100 | `get_or_404`: a participant is found iff one with that id is stored, and the found one has that id |
| Models.Store.ReferralOf | backend/routes/nested.py:99 | `filter_by(id=rid, participant_id=pid).first()`: found iff a referral has that id and belongs to `pid` |
| Participants.DisplayNameJoins | backend/routes/participants.py:20 | the `name` field: the two stripped names joined by one space, with no space when either is blank |
| Participants.RefRow | backend/routes/participants.py:34-57 | `_ref_row`: kind "employer" iff `employer_id` is truthy, "provider" iff only `provider_id` is; `org_id` is that id, or None with no kind; `org_name` is the name of the org with that id in the matching table, and None iff there is none |
| Participants.ActiveByName | backend/routes/participants.py:63 | exactly the active participants, each as often as stored, ordered by (last name, first name) |
| Participants.ByNameOrders | backend/routes/participants.py:63 | `order_by(last_name, first_name)` is a total preorder |
| Participants.ListParticipants | backend/routes/participants.py:60-65 | GET lists every active participant, ordered by (last name, first name) |
| Participants.ListedRowIsActive | backend/routes/participants.py:60-65 | every row GET lists shows an active participant |
| Participants.DobValue | backend/routes/participants.py:76-81 | a falsy `dob` becomes None; a string the date parser accepts becomes the parsed date; one it refuses gives 400 "dob must be YYYY-MM-DD"; a truthy non-string gives 500, and nothing else fails |
| Participants.NewParticipant | backend/routes/participants.py:67-95 | accepted iff both names are strings that are non-blank after stripping and `dob` is acceptable to DobValue; 400 "dob must be YYYY-MM-DD" exactly when the names pass and `dob` is a truthy string the parser rejects; 500 exactly when a name is a truthy non-string, or the names pass and `dob` is a truthy non-string; otherwise 400 for a blank name; an accepted participant has both names stripped, `dob` as DobValue gives it, the four free-form columns copied, active, created now |
| Participants.CreatedName | backend/routes/participants.py:71-72 | a created participant is shown as "first last" of its stripped names |
| Participants.GetParticipant | backend/routes/participants.py:97-101 | 200 with the row iff a participant with that id exists, active or not; otherwise 404 |
| Participants.CreateParticipant | backend/routes/participants.py:67-95 | a refused body leaves the store unchanged; otherwise the participant is appended under the next id and 201 returns that id |
| Participants.FreshIdUnknown | backend/routes/participants.py:97-101 | GET on the id the next insert gets is 404 |
| Participants.LastIdFound | backend/routes/participants.py:97-101 | GET on the id of the last insert returns that participant's row |
| Participants.SetColumn | backend/routes/participants.py:128-130 | `setattr` changes exactly the one column |
| Participants.SetColumns | backend/routes/participants.py:128-130 | the `setattr` loop computes ApplyColumns over all four columns |
| Participants.ApplyColumns | backend/routes/participants.py:128-130 | the `setattr` loop takes each listed column from the body when its key is present and keeps it otherwise; nothing else changes |
| Participants.NameUpdate | backend/routes/participants.py:108-116 | a present name that is blank after stripping gives 400; a string that is non-blank after stripping is accepted and stored as sent, untrimmed; 500 exactly when the value is a truthy non-string |
| Participants.PatchDob | backend/routes/participants.py:119-126 | `dob` changes only when the key is present: falsy gives None, unparsable gives 400 |
| Participants.Patch | backend/routes/participants.py:103-133 | PUT succeeds iff each present name is a string that is non-blank after stripping and a present `dob` is acceptable to DobValue; it fails only with a 500 or one of the three 400s, each 400 pinned by an iff: a blank `first_name` gives "first_name cannot be empty"; once `first_name` passes, a blank `last_name` gives "last_name cannot be empty"; once both pass, a truthy `dob` string the parser rejects gives "dob must be YYYY-MM-DD" |
| Participants.PatchSteps | backend/routes/participants.py:103-133 | the step-by-step PUT handler body computes Patch, returning at the first refusal, and keeps the id |
| Participants.PatchSucceeds | backend/routes/participants.py:103-133 | a successful PUT passed all three checked steps and then applied the columns |
| Participants.PatchChecksFirstName | backend/routes/participants.py:108-110 | a blank `first_name` is refused before anything else is looked at |
| Participants.PatchFields | backend/routes/participants.py:103-133 | a successful PUT keeps id, `is_active` and creation time, and changes names and `dob` only for keys present |
| Participants.PatchColumns | backend/routes/participants.py:128-130 | a successful PUT takes each free-form column from the body iff its key is present |
| Participants.PatchNothing | backend/routes/participants.py:103-133 | PUT with an empty body changes nothing |
| Participants.PatchIdempotent | backend/routes/participants.py:103-133 | sending the same PUT twice has the effect of sending it once |
| Participants.UpdateParticipant | backend/routes/participants.py:103-133 | unknown id gives 404; a refused body leaves the store unchanged; otherwise only that participant changes, to Patch's result |
| Participants.DeleteParticipant | backend/routes/participants.py:135-141 | unknown id gives 404; otherwise only `is_active` becomes false, GET still returns the same row, and the listing no longer contains the id |
| Participants.InactiveNotListed | backend/routes/participants.py:63 | a deactivated participant is missing from the listing |
| Participants.ListNotes | backend/routes/participants.py:144-149 | 404 for an unknown participant; otherwise every note of the participant, newest first |
| Participants.StaffOf | backend/routes/participants.py:160-166 | the staff id is the `id` of a `sub` claim that is an object, else None |
| Participants.NewNote | backend/routes/participants.py:151-171 | 400 "content is required" iff the content is blank after stripping, 500 iff it is a truthy non-string, no other refusal, so a string content that is non-blank after stripping is accepted; the stripped content is stored with the token's staff id |
| Participants.CreateNote | backend/routes/participants.py:151-171 | 404, 400 and 500 leave the store unchanged; otherwise the note is appended under the next id and returned as a row with 201 |
| Participants.CreatedNoteListed | backend/routes/participants.py:144-149 | the row returned for a created note is among the rows the note listing shows after it is stored |
| Participants.ListServices | backend/routes/participants.py:174-179 | 404 for an unknown participant; otherwise every service of the participant, most recent first |
| Participants.NewService | backend/routes/participants.py:181-197 | 400 "service_type is required" iff the type is blank after stripping, 500 iff it is a truthy non-string, no other refusal, so a non-blank string type is accepted; the stripped type and the body's note are stored, with no staff id |
| Participants.CreateService | backend/routes/participants.py:181-197 | refusals leave the store unchanged; otherwise the service is appended under the next id and returned as a row with 201 |
| Participants.CreatedServiceListed | backend/routes/participants.py:174-179 | the row returned for a created service is among the rows the service listing shows after it is stored |
| Participants.ListReferrals | backend/routes/participants.py:200-205 | 404 for an unknown participant; otherwise the participant's referrals as `_ref_row` objects, most recent first |
| Participants.NewReferral | backend/routes/participants.py:207-227 | 400 iff the stripped `kind` is neither "employer" nor "provider" or `org_id` is falsy; otherwise exactly one of the org ids is `org_id`, the other None; the only refusals are that 400 and 500; a stripped kind of "employer" or "provider" with a truthy `org_id` is accepted and sets the matching org id; a falsy status becomes "referred" and a truthy one is kept |
| Participants.CreatedReferralRow | backend/routes/participants.py:217-227 | the reply to a created referral has the requested kind and `org_id` |
| Participants.CreateReferral | backend/routes/participants.py:207-227 | refusals leave the store unchanged; otherwise the referral is appended and its `_ref_row` returned with 201 |
| Nested.ListCasenotes | backend/routes/nested.py:7-11 | at most 200 notes of the participant, newest first, and all of them when there are at most 200; no check that the participant exists |
| Nested.AddCasenote | backend/routes/nested.py:13-19 | no content check and no participant check: the content as sent and the token's `sub` are appended, 201 |
| Nested.NewNoteListed | backend/routes/nested.py:9-19 | a note added for a participant with fewer than 200 notes is in the next listing |
| Nested.ListServices | backend/routes/nested.py:21-25 | at most 200 services of the participant, most recent first, and all of them when there are at most 200 |
| Nested.AddService | backend/routes/nested.py:27-33 | no validation: the body's fields and the token's `sub` are appended, 201 |
| Nested.NewServiceListed | backend/routes/nested.py:23-33 | a service added for a participant with fewer than 200 services is in the next listing |
| Nested.NestedRow | backend/routes/nested.py:69-81 | kind "employer" iff `employer_id` is truthy, else "provider" iff `provider_id` is; `org_id` is `employer_id or provider_id`; a found provider's name wins over the employer's; with no provider found, the name is the employer's when `employer_id` is truthy and None otherwise |
| Nested.ReferralObjects | backend/routes/nested.py:69-82 | the loop builds exactly one NestedRow per referral, in order |
| Nested.ListReferrals | backend/routes/nested.py:65-82 | every referral of the participant, newest first, each as NestedRow describes it |
| Nested.NewReferral | backend/routes/nested.py:84-94 | 400 "invalid kind" iff `kind` is not exactly "employer" or "provider"; `org_id` is not checked; a non-null `status` is stored as sent, falsy values such as "" included; an absent or null `status` stores the column default "referred", which the ORM applies because it leaves a None attribute out of the INSERT |
| Nested.AddReferral | backend/routes/nested.py:84-94 | a refused kind leaves the store unchanged; otherwise the referral is appended with the token's `sub`, 201 |
| Nested.PatchReferral | backend/routes/nested.py:100-102 | only `status` and `note` change; each takes the body's value when its key is present and is kept otherwise |
| Nested.PatchReferralIdempotent | backend/routes/nested.py:100-102 | the same PATCH twice is the same PATCH once |
| Nested.UpdateReferral | backend/routes/nested.py:96-103 | 404 unless the referral exists and belongs to `pid`; otherwise only that referral changes: `status` and `note` take the body's values for the keys present |
| More.ListNotes | backend/routes/more.py:12-23 | 404 for an unknown participant; otherwise at most 200 of the participant's notes, newest first, whole rows |
| More.NewNote | backend/routes/more.py:29-33 | 400 "content required" iff blank after stripping, 500 iff a truthy non-string, no other refusal, so a non-blank string content is accepted; the stripped content and the body's `staff_id` are stored |
| More.CreateNote | backend/routes/more.py:25-35 | 404 and 400 leave the store unchanged; otherwise the note is appended, 201 with its id |
| More.NewNoteListed | backend/routes/more.py:16-19 | a stored note of a participant with fewer than 200 notes is in the next listing |
| More.ListServices | backend/routes/more.py:38-50 | 404 for an unknown participant; otherwise at most 200 of the participant's services, most recent first |
| More.NewService | backend/routes/more.py:56-61 | 400 "service_type required" iff blank after stripping, 500 iff a truthy non-string, no other refusal, so a non-blank string type is accepted; the stripped type, note and `staff_id` are stored |
| More.CreateService | backend/routes/more.py:52-63 | refusals leave the store unchanged; otherwise the service is appended, 201 |
| More.NewServiceListed | backend/routes/more.py:42-45 | a stored service of a participant with fewer than 200 services is in the next listing |
| More.ListReferrals | backend/routes/more.py:66-79 | 404 for an unknown participant; otherwise at most 200 of the participant's referrals, most recent first |
| More.NewReferral | backend/routes/more.py:85-91 | both org ids, staff id and note copied unchecked; status is truthy: the body's when truthy, else "referred" |
| More.CreateReferral | backend/routes/more.py:81-93 | 404 for an unknown participant; otherwise the referral is appended, 201 |
| More.NewReferralListed | backend/routes/more.py:70-73 | a stored referral of a participant with fewer than 200 referrals is in the next listing |
| More.ListNewest | backend/routes/more.py:96-103 | `order_by(id.desc()).limit(200)`: min(n, 200) rows of the table, ids descending, all of them when there are at most 200 |
| More.ListEmployers | backend/routes/more.py:96-103 | GET /employers: min(n, 200) employers, ids descending, only stored ones, all of them when there are at most 200 |
| More.ListProviders | backend/routes/more.py:118-125 | GET /providers: the same over the provider table |
| More.NewestKept | backend/routes/more.py:99 | a row is dropped only from a full listing, and only when every listed id is at least its id |
| More.CreateEmployer | backend/routes/more.py:105-115 | 400 "name required" for a blank name, store unchanged; otherwise the stripped name is stored, 201 |
| More.CreateProvider | backend/routes/more.py:127-137 | the same as CreateEmployer, for providers |
| Orgs.OrgFromBody | backend/routes/employers.py:11-12 | the five fields copied as sent; a null, array or object name fails the NOT NULL TEXT column with a 500 |
| Orgs.NamedOrg | backend/routes/more.py:109-113 | 400 iff the name is blank after stripping, 500 iff it is a truthy non-string, no other refusal, so a non-blank string name is accepted; the stripped name and the other four fields are stored as sent |
| Orgs.BuildersAgree | backend/routes/more.py:109-113 | on an already-stripped non-empty name, more.py's check builds the same row as the unchecked copy |
| Orgs.SortedByName | backend/routes/employers_providers.py:26 | the rows of a table, each as often as stored, in name order |
| Orgs.NewestFirst | backend/routes/more.py:99 | the rows of a table, each as often as stored, ids descending |
| Orgs.Search | backend/routes/employers.py:18-19 | an empty `q` keeps every row; otherwise exactly the rows whose name matches `'%q%'` |
| Orgs.SearchFindsSubstring | backend/routes/employers.py:19 | with a wildcard-free `q`, the search finds exactly the names containing `q` case-insensitively |
| Orgs.SearchListing | backend/routes/employers.py:18-20 | at most 200 matching rows, in name order |
| Orgs.SearchListingComplete | backend/routes/employers.py:20 | a matching row is left out only when the listing is full and every listed name sorts before or equal to it |
| Employers.Create | backend/routes/employers.py:8-13 | non-admins are refused and nothing changes; a refused name gives 500 and nothing changes; otherwise the copied row is appended and 201 returned with its id |
| Employers.ListAll | backend/routes/employers.py:15-21 | any valid token, no role: SearchListing of the employers |
| Providers.Create | backend/routes/providers.py:8-13 | the same as Employers.Create, for providers |
| Providers.ListAll | backend/routes/providers.py:15-21 | any valid token, no role: SearchListing of the providers |
| EmployersProviders.AddEmployer | backend/routes/employers_providers.py:8-21 | admin only; the five fields are copied as sent and 201 is returned with the new id |
| EmployersProviders.AddProvider | backend/routes/employers_providers.py:33-46 | admin only; the same insert for providers |
| EmployersProviders.AllByName | backend/routes/employers_providers.py:23-31 | any valid token: every row of the table, each as often as stored, in name order, with no cap |
| EmployersProviders.ListEmployers | backend/routes/employers_providers.py:23-31 | GET /employers without prefix: any valid token sees every employer, each as often as stored, in name order |
| EmployersProviders.ListProviders | backend/routes/employers_providers.py:48-56 | GET /providers without prefix: the same over the provider table |
| EmployersProviders.SmallTablesAgree | backend/routes/employers_providers.py:26 | with at most 200 rows, the unprefixed listing equals the searched listing with empty `q` |
| ReferralViews.RowsAgree | backend/routes/nested.py:73-81 | nested.py and participants.py describe a referral alike unless both org ids are truthy, or neither is and `provider_id` holds a falsy non-null value |
| ReferralViews.BothIdsDisagree | backend/routes/nested.py:73-81 | with both ids set, nested.py reports kind "employer" under the provider's name where participants.py gives the employer's |
| ReferralViews.ParticipantsReferralsAgree | backend/routes/participants.py:207-227 | every referral participants.py creates is described alike by both listings |
| ReferralViews.NestedReferralsAgree | backend/routes/nested.py:84-94 | every referral nested.py creates with a truthy or null `org_id` is described alike by both listings |
| ReferralViews.MoreStoresBothIds | backend/routes/more.py:86-88 | more.py stores a referral with both org ids truthy |
| ReferralViews.FalsyStatusDiffers | backend/routes/nested.py:93 | an empty-string status is stored as "" by nested.py and as "referred" by participants.py and more.py |
| ReferralViews.NullStatusReferred | backend/models.py:65 | for every body whose `status` is absent or null, all three creators store "referred" |
| ReferralViews.TruthyStatusKept | backend/routes/more.py:90 | a truthy status is stored as sent by all three creators |
| FrontendApi.ApiUrl | frontend/api.js:16 | the URL starts with "/api"; a path already starting with it is kept, any other gets "/api" prepended once |
| FrontendApi.ApiUrlIdempotent | frontend/api.js:16 | prefixing twice is prefixing once |
| FrontendApi.PrefixIsTextual | frontend/api.js:16 | the prefix test is textual: "/apiary" is not prefixed, "/participants" is |
| FrontendApi.MergedHeadersContents | frontend/api.js:12-13 | Authorization is "Bearer " + token iff a non-empty token is stored (otherwise only the caller's); the caller sets every other header, overriding the JSON Content-Type default |
| FrontendApi.Headers | frontend/api.js:12-13 | the headers object built and then updated for the token is MergedHeaders |
| FrontendApi.Api | frontend/api.js:10-19 | the request goes to ApiUrl(path), with the caller's options and the merged headers in place of `options.headers` |

## Left out

- Token issuing and checking: `auth.py` and the token library. A credential is given to the handlers as `NoToken`, `Rejected(code, msg)` or `Bearer(claims)`. The library's 401 and 422 messages are parameters.
- `auth.py`, `geo.py` (a geocoding HTTP proxy), `reports.py` (SQL aggregation), `app.py`, `config.py`, `spa_static.py` and `check_layout.py` (serving and bootstrap) are not part of this model. Nor is the React UI, including `frontend/src/api.js`.
- The outcome creators of nested.py (`add_assessment`, `add_employment`, `add_education`, `add_milestone`) are not modelled: they pass field names the models do not declare.
- Blueprint registration is not modelled. `app.py` registers only the participants and nested blueprints, and the model treats every variant as reachable.
- Request bodies that are not JSON objects are not modelled. Floats in JSON bodies are not modelled either: numbers are integers.
- Date rendering (`isoformat`) is not modelled. Rows carry the stored dates and integer timestamps.
- Date parsing is a parameter `DateParser`; which strings `datetime.fromisoformat` accepts is not modelled.
- Column types are not modelled for columns copied as sent: a value is stored as the JSON value it was. The NOT NULL `name` column of employers and providers is the exception.
- Binding a JSON array or object: sqlite3 cannot bind a list or dict, so the source answers 500 when any column copied as sent (for example `race` at backend/routes/participants.py:87-90, `content` at backend/routes/nested.py:18, `contact_name` at backend/routes/employers.py:12) holds one. The model stores such a value and answers 201; the "accepted iff" rows hold only for bodies whose copied columns are null, booleans, numbers or strings.
- Foreign keys are not enforced, as with SQLite's default settings: nested.py and more.py store org ids that may name no row.
- Org lookups by id: only a JSON number finds a row. A numeric string that SQLAlchemy would coerce finds nothing in the model.
- Transactions: a handler that refuses a request leaves the store as it was. This models the discarded, uncommitted session; commit failures other than the NOT NULL name are not modelled.
- ListParticipants, CreateParticipant, DeleteParticipant: the model assumes a boolean `is_active` column. As written, `models.py` declares none, so `filter_by(is_active=True)` (backend/routes/participants.py:63) raises and the listing answers 500, `Participant(..., is_active=True)` (participants.py:91) raises TypeError and creation answers 500, and `p.is_active = False` (participants.py:139) sets a plain attribute that is never stored.
- Ties in `ORDER BY` are kept in id order. SQLite's tie order is unspecified.
- FrontendApi.Api: `fetch`, `localStorage` (`getToken`, `setToken`) and the case-insensitive merging of header names done by `fetch` are not modelled. The stored token is a parameter.
- `Participants.ListReferrals` and `Nested.ListReferrals` build their rows from the current org tables, which they take from the store as it is at the call.
