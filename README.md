# Biblioteca Musical Católica — a verified model

This project models the logic of a small catalogue of liturgical songs. It is
a CRUD service with a thin admin front end. Four parts carry logic:

- **Admin-form normalisation** (`AdminForm`, over the JavaScript string
  primitives in `Text`). `formatarTexto` title-cases free text. A fixed table
  suggests mass moments per liturgical category. The add and edit forms build
  their payload from the form fields.
- **The newest server.**
  - `SongSchema`: the Mongoose schema of a song (four required trimmed fields,
    six optional trimmed fields: the key `tom` and five links) and what
    creating and updating do with a body.
  - `SongQueries`: the store queries over songs held in insertion order.
  - `SongStore`: the song collection class and its request handlers, among
    them the random repertoire.
  - `Highlights`: the highlight ("destaques") store.
  - `Access`: the bearer-token gate and the login decision.
- **The earlier server** (`LegacyServer`). It keeps six unvalidated fields and
  has a filter that needs both parameters and ignores case. It has
  create/read/update/delete by id and a plaintext login.
- **The 1.0 schema** (`MusicaSchema`). It validates a record and fills in its
  defaults: a required trimmed title and two enumerations that default to
  `"Outro"`.

The document store is replaced by a sequence of songs in insertion order,
with ids drawn from a counter. Each handler answers with a `Result`. Its
`Failure` carries an `Http.Error`, and `Http.Error.Status` maps that to the
status code. Token verification, token signing and the bcrypt comparison are
function parameters. `Math.random()` is replaced by the draws it returned.

Some consequences of the code worth knowing:

- The newest schema requires all four of `titulo`, `artista`, `tempo` and
  `momento`.
- Replacing the highlights deletes every stored document and then saves. This
  is not atomic: when the save is refused the old slides are already gone.
  `HighlightStore.Replace` shows exactly that.
- A slide's image URL is as optional as its link.
- The protected listing is sorted by title only.

## Model

| member | source | states |
|---|---|---|
| Http.Error.Status | Biblioteca-musical-catolica/backend/server.js:54-57 | Every error answer is a 4xx. It is 400 exactly for validation errors, missing parameters and refused saves; an absent token is 401, a token that fails verification 403, an unknown id 404 |
| Text.Trim | Biblioteca-musical-catolica/frontend/assets/js/admin.js:13 | `trim` leaves no whitespace at either end and never lengthens. It leaves a trimmed string unchanged. The result is empty exactly when the input is all whitespace |
| Text.TrimIsSlice | Biblioteca-musical-catolica/frontend/assets/js/admin.js:13 | `trim` removes only outer whitespace: the result is a slice `s[a..b]` of the input with only whitespace before `a` and after `b` |
| Text.TrimStart | Biblioteca-musical-catolica/frontend/assets/js/admin.js:13 | The result is a suffix with no leading whitespace, and only whitespace was dropped |
| Text.TrimEnd | Biblioteca-musical-catolica/frontend/assets/js/admin.js:13 | The result is a prefix with no trailing whitespace, and only whitespace was dropped |
| Text.ToUpper | Biblioteca-musical-catolica/frontend/assets/js/admin.js:13 | Upper-casing a character never turns whitespace into non-whitespace or back, and maps the space to itself only |
| Text.ToLower | Biblioteca-musical-catolica/frontend/assets/js/admin.js:13 | Lower-casing a character never turns whitespace into non-whitespace or back, and maps the space to itself only |
| Text.CaseIdempotent | Biblioteca-musical-catolica/frontend/assets/js/admin.js:13 | Upper-casing twice is upper-casing once; the same holds for lower-casing |
| Text.UpperCase | Biblioteca-musical-catolica/frontend/assets/js/admin.js:93 | `toUpperCase` keeps the length and upper-cases each character in place |
| Text.LowerCase | Biblioteca-musical-catolica/frontend/assets/js/admin.js:13 | `toLowerCase` keeps the length and lower-cases each character in place |
| Text.UpperCaseTrimmed | Biblioteca-musical-catolica/frontend/assets/js/admin.js:93 | `trim().toUpperCase()` stays trimmed, and upper-casing it again changes nothing |
| Text.EqualsIgnoringCase | backend/server.js:39-40 | The anchored case-insensitive pattern matches exactly when both strings have the same length and agree character by character after upper-casing; every string matches itself |
| Text.Split | Biblioteca-musical-catolica/frontend/assets/js/admin.js:13 | `split(sep)` gives at least one piece, empty pieces included, and no piece holds the separator |
| Text.SplitCount | Biblioteca-musical-catolica/frontend/assets/js/admin.js:13 | `split(sep)` gives exactly one more piece than there are separators in the string |
| Text.SplitNoSeparator | Biblioteca-musical-catolica/backend/server.js:52 | A string without the separator splits into itself alone |
| Text.SplitAtFirst | Biblioteca-musical-catolica/backend/server.js:52 | The first piece ends at the first separator; the rest is the split of what follows |
| Text.JoinConsFirst | Biblioteca-musical-catolica/frontend/assets/js/admin.js:13 | Prepending a character to the first piece prepends it to the joined string |
| Text.Join | Biblioteca-musical-catolica/frontend/assets/js/admin.js:13 | `join(sep)` of no pieces is empty and of one piece is that piece. The first piece starts the result, and with two or more pieces the separator follows it |
| Text.SplitJoin | Biblioteca-musical-catolica/frontend/assets/js/admin.js:13 | Splitting the join of separator-free pieces gives the pieces back: the inverse of `JoinSplit` |
| Text.JoinSplit | Biblioteca-musical-catolica/frontend/assets/js/admin.js:13 | Joining the pieces of a split with the same separator gives back the original string |
| Text.LexLeqTotal | Biblioteca-musical-catolica/backend/server.js:68 | Any two titles are comparable in the store's string order |
| Text.LexLeqTransitive | Biblioteca-musical-catolica/backend/server.js:68 | The store's string order is transitive |
| AdminForm.Capitalize | Biblioteca-musical-catolica/frontend/assets/js/admin.js:13 | Capitalising a word keeps its length |
| AdminForm.CapitalizeAll | Biblioteca-musical-catolica/frontend/assets/js/admin.js:13 | Mapping over the pieces keeps their number and capitalises each one in place |
| AdminForm.FormatText | Biblioteca-musical-catolica/frontend/assets/js/admin.js:13 | An empty input gives the empty string |
| AdminForm.CaseByPosition | Biblioteca-musical-catolica/frontend/assets/js/admin.js:13 | The character-by-character reference casing keeps the length |
| AdminForm.JoinCasePieces | Biblioteca-musical-catolica/frontend/assets/js/admin.js:13 | Split, case each piece, join: this equals casing character by character |
| AdminForm.SplitCaseByPosition | Biblioteca-musical-catolica/frontend/assets/js/admin.js:13 | Splitting the character-by-character casing gives the cased pieces of the original split |
| AdminForm.CaseByPositionAt | Biblioteca-musical-catolica/frontend/assets/js/admin.js:13 | Character `i` of the reference casing is upper-cased exactly when it opens a word |
| AdminForm.CaseByPositionIdempotent | Biblioteca-musical-catolica/frontend/assets/js/admin.js:13 | Casing by position twice is casing once |
| AdminForm.FormatTextByPosition | Biblioteca-musical-catolica/frontend/assets/js/admin.js:13 | `formatarTexto` equals the character-by-character reference on the trimmed input |
| AdminForm.FormatTextAt | Biblioteca-musical-catolica/frontend/assets/js/admin.js:13 | The result is as long as the trimmed input. Each character is that of the trimmed input, upper-cased when first or after a space and lower-cased otherwise |
| AdminForm.FormatTextPieces | Biblioteca-musical-catolica/frontend/assets/js/admin.js:13 | Splitting the result on spaces gives the capitalised pieces of the trimmed input, so the piece count is preserved, empty pieces included |
| AdminForm.FormatTextTrimmed | Biblioteca-musical-catolica/frontend/assets/js/admin.js:13 | The result has the trimmed input's length and needs no trimming |
| AdminForm.FormatTextIdempotent | Biblioteca-musical-catolica/frontend/assets/js/admin.js:13 | Formatting an already formatted string changes nothing |
| AdminForm.SuggestMoments | Biblioteca-musical-catolica/frontend/assets/js/admin.js:2-18 | A known category gives exactly its table row, in order. The result is empty exactly for an unknown category |
| AdminForm.Payload | Biblioteca-musical-catolica/frontend/assets/js/admin.js:88-97 | Title, artist and moment are `formatarTexto` of the field, so they keep their trimmed length. `tempo` is sent verbatim and the three links are trimmed. `tom` is the trimmed key upper-cased character by character |
| AdminForm.PayloadTrimmed | Biblioteca-musical-catolica/frontend/assets/js/admin.js:132-141 | Every payload field except the category needs no trimming |
| AdminForm.PayloadIdempotent | Biblioteca-musical-catolica/frontend/assets/js/admin.js:132-141 | Normalising a payload a second time changes nothing |
| SongSchema.SchemaFields | Biblioteca-musical-catolica/backend/server.js:26-37 | Strict mode: a schema path is kept exactly when the body names it, with the body's value. Other keys are not schema fields |
| SongSchema.AllPathsListed | Biblioteca-musical-catolica/backend/server.js:26-37 | The ten listed paths are the whole schema |
| SongSchema.Keys | Biblioteca-musical-catolica/backend/server.js:108-110 | The error names one key per failing path, in order: key `i` is the JSON key of path `i` |
| SongSchema.Field | Biblioteca-musical-catolica/backend/server.js:27-30 | The four required paths always hold a value |
| SongSchema.Sent | Biblioteca-musical-catolica/backend/server.js:26-35 | The trim setter: a value exactly when the path is sent, and then the trimmed sent value, which is empty exactly when a required validator would reject it |
| SongSchema.Unfilled | Biblioteca-musical-catolica/backend/server.js:27-30 | Lists exactly the given paths whose required validator fails: absent, or blank once trimmed |
| SongSchema.Blanked | Biblioteca-musical-catolica/backend/server.js:118 | Lists exactly the given paths that are sent but blank once trimmed: the paths an update validator rejects |
| SongSchema.NewSong | Biblioteca-musical-catolica/backend/server.js:101-110 | Creation succeeds exactly when all four required fields are sent and non-blank. Otherwise it is a validation error naming each failing path. The new song gets the given id |
| SongSchema.NewSongFields | Biblioteca-musical-catolica/backend/server.js:26-37 | A created song holds the trimmed sent value on every path and nothing else, so it is well formed |
| SongSchema.ApplyUpdate | Biblioteca-musical-catolica/backend/server.js:116-127 | An update fails exactly when a sent required field is blank. The error names those paths, and the id is kept |
| SongSchema.ApplyUpdateFields | Biblioteca-musical-catolica/backend/server.js:118 | After a successful update each path holds the trimmed sent value, or else the value it held before |
| SongSchema.ApplyUpdateMerges | Biblioteca-musical-catolica/backend/server.js:118 | Partial merge: each path holds the trimmed sent value, or else its old value. A well-formed song stays well formed |
| SongSchema.FieldsDetermineSong | Biblioteca-musical-catolica/backend/server.js:26-37 | A song is determined by its id and its ten paths |
| SongSchema.EmptyUpdateIsIdentity | Biblioteca-musical-catolica/backend/server.js:118 | An update that sends nothing leaves the song as it is |
| SongQueries.FindById | Biblioteca-musical-catolica/backend/server.js:92-93 | Finds a song exactly when some stored song has the id, and what it finds is stored and has that id |
| SongQueries.RemoveById | Biblioteca-musical-catolica/backend/server.js:133-134 | Keeps exactly the stored songs with another id, never grows, and changes nothing when the id is absent |
| SongQueries.RemoveByIdAppend | Biblioteca-musical-catolica/backend/server.js:133 | Deleting keeps the order of the remaining songs: the survivors among earlier songs come before those among later ones |
| SongQueries.ReplaceById | Biblioteca-musical-catolica/backend/server.js:118 | Same length; each song with the updated id is replaced and every other song stays |
| SongQueries.FindAll | Biblioteca-musical-catolica/backend/server.js:82 | Returns exactly the stored songs matching the query, never more songs than stored. The empty query returns every song in insertion order |
| SongQueries.FindAllCount | Biblioteca-musical-catolica/backend/server.js:82 | Each matching song occurs in the result as often as it is stored, and no other song occurs |
| SongQueries.FindAllAppend | Biblioteca-musical-catolica/backend/server.js:82 | Insertion order is kept: the matches among earlier songs come before those among later ones |
| SongQueries.InsertByTitle | Biblioteca-musical-catolica/backend/server.js:68 | Insertion adds exactly one copy of the song |
| SongQueries.SortByTitle | Biblioteca-musical-catolica/backend/server.js:68 | The sorted listing is a permutation of the store |
| SongQueries.InsertByTitleSorted | Biblioteca-musical-catolica/backend/server.js:68 | Inserting into a listing sorted by title keeps it sorted |
| SongQueries.SortByTitleCorrect | Biblioteca-musical-catolica/backend/server.js:68 | The listing is ordered by title ascending and is a permutation of the store |
| Access.BearerToken | Biblioteca-musical-catolica/backend/server.js:51-52 | No header gives no token and an empty header gives the empty token. Otherwise a token exists exactly when the header holds a space, and the token holds none |
| Access.BearerTokenSplitsHeader | Biblioteca-musical-catolica/backend/server.js:52 | A header holding a space is a space-free scheme, one space, the extracted token, then nothing or a space |
| Access.BearerTokenOfScheme | Biblioteca-musical-catolica/backend/server.js:52 | The token is the piece after the first space, up to the next one. A `<scheme> <token>` header yields that token, whatever follows a space after it, and `"Bearer  tok"` yields the empty token |
| Access.Gate | Biblioteca-musical-catolica/backend/server.js:50-61 | 401 exactly when the header is absent, or non-empty without a space. 403 exactly when the extracted token fails verification. Passing means the token verified |
| Access.GateOfScheme | Biblioteca-musical-catolica/backend/server.js:50-61 | A `<scheme> <token>` request passes exactly when the token verifies, and is 403 otherwise, whatever follows a space after the token |
| Access.Login | Biblioteca-musical-catolica/backend/server.js:198-211 | Login succeeds exactly when the username equals the configured one and the password matches the hash. It returns the token signed for the configured user; otherwise 401 |
| Access.LoginTokenPassesGate | Biblioteca-musical-catolica/backend/server.js:197-211 | Assume signed tokens verify and hold no space. Then the token a successful login returns, sent as `Bearer <token>`, passes the gate |
| SongStore.Draw | Biblioteca-musical-catolica/backend/server.js:159 | `Math.floor(Math.random() * count)` is an index below `count`, and 0 when `count` is 1 |
| SongStore.SearchQuery | Biblioteca-musical-catolica/backend/server.js:79-81 | The query constrains `tempo` and `momento` exactly when the parameter is present and non-empty, to that value, and nothing else |
| SongStore.Matching | Biblioteca-musical-catolica/backend/server.js:156-160 | Exactly the stored songs of that `tempo` and `momento` |
| SongStore.MatchingCount | Biblioteca-musical-catolica/backend/server.js:156 | Each song of that `tempo` and moment occurs as often as it is stored and no other song occurs, so the count of matches is the number `countDocuments` gives |
| SongStore.MatchesTempoMomento | Biblioteca-musical-catolica/backend/server.js:156 | The `{tempo, momento}` query matches exactly the songs with both values |
| SongStore.SongCollection.constructor | Biblioteca-musical-catolica/backend/server.js:39 | An empty collection satisfies the invariant |
| SongStore.SongCollection.ListAll | Biblioteca-musical-catolica/backend/server.js:66-73 | Past the gate, the listing is sorted by title and a permutation of the store; otherwise the gate's 401/403 |
| SongStore.SongCollection.Search | Biblioteca-musical-catolica/backend/server.js:76-87 | Public. Returns exactly the stored songs equal to each non-empty parameter, in insertion order; no parameters returns every song |
| SongStore.SongCollection.Get | Biblioteca-musical-catolica/backend/server.js:90-98 | Past the gate, success exactly when some stored song has the id, and then it returns the stored song with that id. Otherwise 404, or the gate's 401/403 |
| SongStore.SongCollection.Create | Biblioteca-musical-catolica/backend/server.js:101-113 | Past the gate, the result is the schema's creation with the next id. On success the song is appended and found under its fresh id, and the counter advances. On any error the store is unchanged. The invariant is kept |
| SongStore.UpdateOutcome | Biblioteca-musical-catolica/backend/server.js:116-127 | A sent blank required field is a 400 naming those paths, decided before the lookup. An absent id is 404 exactly when no field is blank. Success exactly when nothing is blank and the id is stored, with the stored song merged with the sent fields and keeping its id |
| SongStore.UpdateKeepsValid | Biblioteca-musical-catolica/backend/server.js:118 | A successful update keeps the ids distinct, issued and the songs well-formed, and the merged song is then found under its id |
| SongStore.SongCollection.Update | Biblioteca-musical-catolica/backend/server.js:116-128 | Past the gate, the answer is the update outcome for the stored songs; otherwise the gate's 401/403. On success the merged song replaces the stored one and is found under its id. Errors leave the store unchanged. The invariant and the id counter are kept |
| SongStore.SongCollection.Delete | Biblioteca-musical-catolica/backend/server.js:131-139 | Past the gate, success exactly when the id is present, and 404 otherwise with the store unchanged. On success exactly that song is removed, one fewer song remains and a later lookup finds nothing. The invariant is kept |
| SongStore.SongCollection.RandomRepertoire | Biblioteca-musical-catolica/backend/server.js:144-172 | A missing or empty `tempo` is 400. Otherwise there is one slot per moment, in the fixed order. A slot is null exactly when no song matches. Otherwise it holds the match at the drawn index, a stored song of that `tempo` and moment. With exactly one match, that song |
| SongStore.AppendKeepsValid | Biblioteca-musical-catolica/backend/server.js:103-104 | Appending a well-formed song under the next id keeps the ids distinct and issued. The new song is found under its id |
| SongStore.FindByIdAppend | Biblioteca-musical-catolica/backend/server.js:103-104 | After appending a song with a fresh id, looking up that id finds it |
| SongStore.FindByIdIn | Biblioteca-musical-catolica/backend/server.js:92 | With distinct ids, looking up any stored song's id finds that song |
| SongStore.ReplaceByIdDistinct | Biblioteca-musical-catolica/backend/server.js:118 | Replacing by id keeps distinct ids distinct |
| SongStore.ReplaceByIdMembers | Biblioteca-musical-catolica/backend/server.js:118 | After a replacement every song is the replacement or was already stored |
| SongStore.ReplaceByIdKeepsValid | Biblioteca-musical-catolica/backend/server.js:118 | Replacing by id with a well-formed song of that id keeps the invariant, and the replacement is then found |
| SongStore.RemoveByIdDistinct | Biblioteca-musical-catolica/backend/server.js:133 | Removing by id keeps the ids distinct |
| SongStore.RemoveByIdCount | Biblioteca-musical-catolica/backend/server.js:133 | With distinct ids, removing a present id drops exactly one song |
| SongStore.RemoveByIdKeepsValid | Biblioteca-musical-catolica/backend/server.js:133-134 | Removing a present id keeps the invariant, drops one song and leaves none with that id |
| Highlights.Shown | Biblioteca-musical-catolica/backend/server.js:177-178 | A read shows the first document's slides, or `[]` when there is none |
| Highlights.HighlightStore.constructor | Biblioteca-musical-catolica/backend/server.js:41-47 | An empty store satisfies the invariant |
| Highlights.HighlightStore.Read | Biblioteca-musical-catolica/backend/server.js:175-182 | Past the gate, the shown slides; otherwise the gate's 401/403. Under the store invariant the shown slides are the only stored document, and nothing is shown exactly when nothing is stored |
| Highlights.HighlightStore.Replace | Biblioteca-musical-catolica/backend/server.js:184-195 | Past the gate, everything is deleted. A present, non-empty list is then stored if the save is accepted, and a refused save is 400 with the store left empty. Other inputs succeed with the store empty |
| Highlights.ReplaceThenRead | Biblioteca-musical-catolica/backend/server.js:186-190 | A read after a replacement shows the new slides when they were non-empty and saved, and `[]` otherwise. No old slide survives |
| LegacyServer.EveryPath | backend/server.js:18-25 | The six listed paths are the whole schema |
| LegacyServer.FromBody | backend/server.js:58-65 | A created song holds, on each of the six paths, the body's value or nothing. No other key enters it |
| LegacyServer.FromBodyIgnoresOtherKeys | backend/server.js:58-65 | Bodies that agree on the six fields create the same song |
| LegacyServer.Merge | backend/server.js:121 | The id is kept. Each path the body names takes its value, unvalidated; the others stay |
| LegacyServer.FieldsDetermineSong | backend/server.js:18-25 | A song is determined by its id and its six paths |
| LegacyServer.MergeNothing | backend/server.js:121 | A body naming no field leaves the song unchanged |
| LegacyServer.MergeIdempotent | backend/server.js:121 | Applying the same update twice is applying it once |
| LegacyServer.Filter | backend/server.js:38-41 | Exactly the stored songs whose present `tempo` and `momento` equal the parameters ignoring case |
| LegacyServer.FieldMatches | backend/server.js:39-40 | A field matches only when present and of the parameter's length; a present field equal to the parameter always matches |
| LegacyServer.FilterCount | backend/server.js:38-41 | Each matching song occurs in the result as often as it is stored, and no other song occurs |
| LegacyServer.FilterCons | backend/server.js:38-41 | A first song that matches comes first in the result, ahead of the matches of the rest |
| LegacyServer.FilterAppend | backend/server.js:38-41 | Insertion order is kept: the matches among earlier songs come before those among later ones |
| LegacyServer.FilterIgnoresCase | backend/server.js:39-40 | Parameters that are case variants of each other select the same songs in the same order |
| LegacyServer.FindById | backend/server.js:105 | Finds a song exactly when one has the id; what it finds is stored and has that id |
| LegacyServer.RemoveById | backend/server.js:92 | Keeps exactly the stored songs with another id |
| LegacyServer.RemoveByIdCount | backend/server.js:92 | Every song with another id stays, as often as it was stored, and none with the id stays |
| LegacyServer.RemoveByIdAppend | backend/server.js:92 | Order is kept: the survivors among earlier songs come before those among later ones |
| LegacyServer.ReplaceById | backend/server.js:121 | Same length; the song with the updated id is replaced and every other song stays |
| LegacyServer.FindByIdReplaced | backend/server.js:121 | After replacing a present id, looking it up finds the replacement |
| LegacyServer.FindByIdAppend | backend/server.js:67 | After appending a song with a fresh id, looking it up finds that song |
| LegacyServer.AppendFreshDistinct | backend/server.js:67 | Storing a song under a fresh id keeps the ids unique |
| LegacyServer.RemoveByIdOne | backend/server.js:92 | With unique ids, deleting a present id removes exactly one song and keeps the ids unique |
| LegacyServer.RemoveByIdAbsent | backend/server.js:92 | Deleting an id no song has changes nothing |
| LegacyServer.LegacyCollection.constructor | backend/server.js:26 | An empty collection satisfies the invariant |
| LegacyServer.LegacyCollection.Search | backend/server.js:30-53 | 400 exactly when either parameter is missing or empty. Otherwise exactly the songs matching both ignoring case, in insertion order |
| LegacyServer.LegacyCollection.Create | backend/server.js:56-76 | Always stores the song built from the six fields, under a fresh id where it is then found. The ids stay unique |
| LegacyServer.LegacyCollection.All | backend/server.js:79-86 | Every stored song, unfiltered, in insertion order |
| LegacyServer.LegacyCollection.Get | backend/server.js:103-113 | The only failure is 404, exactly when no song has the id; otherwise the stored song with that id |
| LegacyServer.LegacyCollection.Delete | backend/server.js:89-100 | The only failure is 404, exactly when the id is absent, with the store unchanged. Otherwise exactly that one song is removed, one fewer song remains, a later lookup finds nothing, and the ids stay unique |
| LegacyServer.LegacyCollection.Update | backend/server.js:116-134 | The only failure is 404, exactly when the id is absent, with the store unchanged. Otherwise the merged song replaces the stored one, is returned, and is found under its id. The ids stay unique |
| LegacyServer.Login | backend/server.js:137-153 | 200 exactly when username and password both equal the configured values, compared as plain values; otherwise 401 |
| LegacyServer.LoginUnconfigured | backend/server.js:141-144 | With nothing configured, a request sending no credentials is let in, and any request naming a user is refused |
| MusicaSchema.TrimmedOption | Biblioteca-musical-catolica1.0/backend/models/Musica.js:9-12 | The trim setter keeps presence and stores the trimmed value |
| MusicaSchema.WithDefault | Biblioteca-musical-catolica1.0/backend/models/Musica.js:13-22 | A given enumeration value is kept; an absent one becomes `"Outro"` |
| MusicaSchema.FailingPaths | Biblioteca-musical-catolica1.0/backend/models/Musica.js:4-22 | Names `titulo` exactly when it is absent or blank once trimmed. Names each enumeration exactly when its value is given and unlisted. Empty exactly when all three pass |
| MusicaSchema.Validate | Biblioteca-musical-catolica1.0/backend/models/Musica.js:3-31 | Accepted exactly when all validators pass, otherwise an error naming every failing path. A saved record is valid: title and author trimmed, enumerations defaulted, links and lyrics verbatim |
| MusicaSchema.DefaultsListed | Biblioteca-musical-catolica1.0/backend/models/Musica.js:15-21 | `"Outro"` is a member of both enumerations |
| MusicaSchema.OnlyTitleAccepted | Biblioteca-musical-catolica1.0/backend/models/Musica.js:4-22 | A record holding only a non-blank title is accepted. The title is trimmed and both enumerations are `"Outro"` |
| MusicaSchema.BlankTitleRejected | Biblioteca-musical-catolica1.0/backend/models/Musica.js:4-8 | A record with no title, or only whitespace, is rejected, naming `titulo` |
| MusicaSchema.StoredRevalidates | Biblioteca-musical-catolica1.0/backend/models/Musica.js:3-28 | A valid stored record passes validation again unchanged |
| MusicaSchema.ValidateIdempotent | Biblioteca-musical-catolica1.0/backend/models/Musica.js:3-28 | Validating an accepted record's result again gives the same record |

## Left out

- The MongoDB connection and driver are not modelled. Neither are the `500` answers for store faults.
  - A song collection in insertion order stands in for the store.
  - `findOne().skip(r)` is taken to return matches in insertion order.
- Ids are natural numbers from a counter. The `ObjectId` format and the answer to a malformed id are not modelled. That answer is 500 for GET and DELETE in the newest server and for all three id routes of the earlier server; only the newest PUT answers 400.
- `SongSchema.SchemaFields`: Mongoose also keeps an `_id` sent in a create or update body, so a client can choose a new song's id or collide with an existing one (a 400). Ids here always come from the counter.
- Express routing and middleware are not modelled. Neither are the route file and the controller of the 1.0 backend, which only delegate.
- The React components are not modelled.
- In `admin.js`, the DOM, `fetch` and `sessionStorage` code is not modelled.
- bcrypt, JWT signing and verification, and token expiry are left out. They become the parameters `passwordMatches`, `sign` and `verify`.
- `Access.Login` treats `passwordMatches` as total. It does not model bcrypt rejecting an absent password or hash: that request gets no answer.
- `Math.random()` is left out. `RandomRepertoire` takes one draw in [0, 1) per moment.
- `Text.ToUpper`: case mapping covers ASCII and Latin-1 letters only. `ß`, `ÿ`, `µ` and every other character are left unchanged, and so are mappings that change length.
- `LegacyServer.Filter`: the parameters are spliced unescaped into a regular expression. The model compares whole strings ignoring case instead. Regular-expression metacharacters are not modelled, nor the server-side `$` that also matches before a final newline.
- `AdminForm.SuggestMoments`: a category that names an inherited object property, such as `constructor`, makes the source's lookup yield a function and the caller throw. The model returns `[]` for every unknown category. The admin page only passes categories taken from the table's own keys.
- `AdminForm.FormatText`: the input is a string. The `undefined` input the source also maps to `''` is outside the model.
- Request bodies are maps from keys to strings. JSON numbers, `null`, nested objects and arrays are not modelled. Neither are repeated query parameters.
- `SongStore.SongCollection.Search` and `SongStore.SongCollection.RandomRepertoire`: query values (the search parameters, and the `tempo` of the `countDocuments` and `findOne` filters) are compared exactly as sent. A trim setter that some store versions also run on query values is not modelled.
- `Highlights.HighlightStore.Replace`: `saved` stands for the store accepting the new document.
  - Slide casting and a `slides` value that is not an array are not modelled.
  - The delete-then-save is sequential; concurrent readers are not modelled.
- Timestamps, indexes and concurrency between requests are not modelled.
