# Demo store and logo upload, modelled in Dafny

This project models the two server routes of a small web app. The app manages
client-specific chatbot "demo" pages.

- `/api/demos` (`DemosRoute`, demos.dfy) keeps Demo records in a module-level
  in-memory array. Its four handlers work on that array. GET lists all records,
  or the records of one client with the name compared ignoring case. POST
  appends a record. PUT overwrites the first record whose id matches. DELETE
  removes every record with an id. The array is the `demos: seq<Demo>` field of
  the class `DemoStore`. Each handler is a method that returns the HTTP status
  and the JSON reply. The filter and `findIndex` steps are the functions
  `Filter` and `FirstIndex`, and lemmas state their properties.
- `/api/upload` (`UploadRoute`, upload.dfy) accepts one image file. It
  sanitises the file name, prefixes it with the current time in milliseconds,
  writes it to the public logos folder and returns `/logos/<filename>`. The
  name functions (`Sanitize`, `DecimalDigits`, `StoredFilename`, `PublicPath`)
  are pure, and lemmas state their properties. The handler is the method
  `LogoFolder.Post`, which changes a map from file name to contents.
- `Ascii` (ascii.dfy) gives the character classes and the ASCII lower-casing
  that the client-name lookup uses. `Wrappers` (wrappers.dfy) gives `Option`,
  which stands for a JavaScript `null` or missing value. `Http` (http.dfy)
  names the status codes both routes answer with.

Behaviour of the routes that a reader might not expect:

- PUT takes the record id only from the `id` query parameter. The admin page
  sends the id in the JSON body, so its edits reach PUT with no query id, and
  a missing id never matches, so they get 404. `DemoStore.Put` models the
  route as written.
- The store does not make ids unique. POST draws a random id (the model's
  `freshId`) and never checks it against the stored ids, and DELETE removes
  every record that has the given id.
- The upload handler overwrites a file that already has the same name (same
  millisecond, same sanitised name). `LogoFolder.Post` models this as a map
  update.

## Model

| member | source | states |
|---|---|---|
| `DemosRoute.DemoStore.constructor` | src/app/api/demos/route.ts:4-11 | the store starts empty |
| `DemosRoute.DemoStore.Get` | src/app/api/demos/route.ts:13-25 | GET always answers 200 and never changes the store; with no name or an empty name it returns the whole store; otherwise it returns the store's records filtered by client name, each of them a stored record |
| `DemosRoute.Listing` | src/app/api/demos/route.ts:17-24 | GET's answer is no longer than the store; with no name or an empty name it is the whole store; otherwise every record in it has the query's client name, ignoring case |
| `DemosRoute.OrElse` | src/app/api/demos/route.ts:38 | JavaScript's logical-or default on an optional string: a present, non-empty value wins, a missing or empty one gives the fallback, so the result is empty only when the fallback is (used for POST at line 38 with '' and for PUT at line 72 with the old path) |
| `DemosRoute.ListingByName` | src/app/api/demos/route.ts:17-21 | for a non-empty query, a record is in GET's answer exactly when it is stored and its lower-cased client name equals the lower-cased query |
| `DemosRoute.ListingIgnoresCase` | src/app/api/demos/route.ts:17-21 | two queries that lower-case alike (such as "Acme" and "acme") give the same GET answer |
| `DemosRoute.Filter` | src/app/api/demos/route.ts:18-20 | the filtered list is no longer than the store and every record in it satisfies the criterion |
| `DemosRoute.FilterMember` | src/app/api/demos/route.ts:18-20 | a record survives filtering exactly when it is in the store and satisfies the criterion |
| `DemosRoute.FilterAppend` | src/app/api/demos/route.ts:98 | filtering a concatenation is the concatenation of the filtered parts, so survivors keep their relative order |
| `DemosRoute.FilterKeepsAll` | src/app/api/demos/route.ts:97-100 | the filtered list has the store's length exactly when every record satisfies the criterion, and then it equals the store |
| `DemosRoute.FilterIgnoresCase` | src/app/api/demos/route.ts:19 | client-name filtering depends on the query only through its lower-cased form |
| `DemosRoute.FirstIndex` | src/app/api/demos/route.ts:58 | the result is the first position whose id equals the given id, or none exactly when no record has that id |
| `DemosRoute.FindTarget` | src/app/api/demos/route.ts:55-58 | PUT's target is a position holding the query id; there is none exactly when the query id is missing or no record has it |
| `DemosRoute.DemoStore.Post` | src/app/api/demos/route.ts:27-42 | POST answers 200 and appends exactly one record at the end, leaving earlier records unchanged; the reply is the new last record, with the given id and the body's fields; its background path is the body's when present and non-empty, else '' |
| `DemosRoute.DemoStore.Put` | src/app/api/demos/route.ts:52-75 | with no target, PUT answers 404 and leaves the store unchanged; otherwise it answers 200 and changes only the first matching record, which keeps its id, takes the four scalar fields from the body and keeps its background path when the body's is missing or empty; the length and all other records are unchanged, and the reply is the updated record |
| `DemosRoute.DemoStore.Delete` | src/app/api/demos/route.ts:85-107 | DELETE answers 400 exactly when the id is missing or empty, and then the store is unchanged; otherwise the store becomes its records with other ids, in order; the answer is 404 exactly when no record had the id, and then the store is unchanged; on 200 the store is shorter |
| `Ascii.ToLowerChar` | src/app/api/demos/route.ts:19 | an upper-case ASCII letter becomes the matching lower-case letter, every other character is kept, and the result is never upper-case |
| `Ascii.ToLower` | src/app/api/demos/route.ts:19 | lower-casing keeps the length and leaves no upper-case ASCII letter |
| `Ascii.ToLowerAt` | src/app/api/demos/route.ts:19 | lower-casing keeps the length and works character by character |
| `Ascii.ToLowerIdempotent` | src/app/api/demos/route.ts:19 | lower-casing twice is the same as lower-casing once |
| `Ascii.ToLowerFixesLower` | src/app/api/demos/route.ts:19 | a string without upper-case letters is unchanged by lower-casing |
| `UploadRoute.Sanitize` | src/app/api/upload/route.ts:37 | the sanitised name has the original's length and uses only `[a-zA-Z0-9._-]`, so it contains neither '/' nor '\' |
| `UploadRoute.SanitizeAt` | src/app/api/upload/route.ts:37 | the sanitised name has the original's length, each character in `[a-zA-Z0-9.-]` is kept in place, and every other character becomes '_' |
| `UploadRoute.SanitizeFixedPoints` | src/app/api/upload/route.ts:37 | sanitising leaves a name unchanged exactly when it already uses only `[a-zA-Z0-9._-]` |
| `UploadRoute.SanitizeIdempotent` | src/app/api/upload/route.ts:37 | sanitising twice is the same as sanitising once |
| `UploadRoute.DecimalDigits` | src/app/api/upload/route.ts:36-38 | the timestamp is written as a non-empty string of decimal digits, with no leading zero unless the timestamp is 0 |
| `UploadRoute.ParseDecimalInverts` | src/app/api/upload/route.ts:38 | reading the decimal numeral back gives the timestamp |
| `UploadRoute.StoredFilename` | src/app/api/upload/route.ts:36-38 | the stored file name is as long as the timestamp's digits plus one plus the original name, and uses only `[a-zA-Z0-9._-]` |
| `UploadRoute.FilenameRoundTrip` | src/app/api/upload/route.ts:36-38 | a stored file name splits at its first '-' back into the timestamp and the sanitised name it was built from |
| `UploadRoute.PublicPath` | src/app/api/upload/route.ts:45 | the public path starts with `/logos/`, and removing that prefix gives back the file name |
| `UploadRoute.PublicPathShape` | src/app/api/upload/route.ts:36-45 | an upload's public path starts with `/logos/`, has length 7 + the digit count + 1 + the name's length, and after the prefix uses only `[a-zA-Z0-9._-]`, so it has no further '/' or '\' |
| `UploadRoute.Validate` | src/app/api/upload/route.ts:9-30 | a request is accepted exactly when its `file` field is a file whose MIME type starts with `image/`; a missing field is a 400 with "Ingen fil lastet opp"; an empty text entry is a 400 with "Ugyldig fil"; a non-empty text entry is a 500 with "Feil ved opplasting av fil" (reading its MIME type throws and the catch answers); a file with another MIME type is a 400 with "Kun bildefiler er tillatt"; every rejection is a 400 or a 500 |
| `UploadRoute.LogoFolder.constructor` | src/app/api/upload/route.ts:39 | the folder starts with whatever files it already holds |
| `UploadRoute.LogoFolder.Post` | src/app/api/upload/route.ts:5-47 | a rejected request answers with the rejection's status and message and writes nothing; an accepted one answers 200, writes exactly one file, `<timestamp>-<sanitised name>`, with the uploaded bytes, and replies with `/logos/` followed by that name |

## Left out

- HTTP, JSON and `NextResponse` handling and multipart parsing are not modelled. Handlers take the query parameter as an `Option` and the body as already-parsed fields.
- The 500 replies of the demos handlers are not modelled. These include two that a request body causes every time: a POST or PUT body that is not JSON (demos/route.ts:29 and :56, caught at :43 and :76), and a JSON `null` body, whose `body.clientName` throws: always for POST (:34), and for PUT whenever the id matches a record (:68); a PUT whose id matches nothing answers 404 first (:58-64).
- In the upload handler, the 500 replies for form-data errors and disk write errors are not modelled. The one 500 that a request value causes there every time is modelled: a non-empty text entry in the `file` field, whose missing MIME type makes `startsWith` throw.
- The random id of a new demo (`Math.random().toString(36).substr(2, 9)`) is not modelled. `DemoStore.Post` takes it as the parameter `freshId`.
- The clock reading `new Date().getTime()` is not modelled. `LogoFolder.Post` takes it as the parameter `timestamp`.
- UploadRoute.DecimalDigits: a timestamp is a natural number. JavaScript's negative times (before 1970) and its exponent notation for values of 10^21 and above are not modelled.
- Disk writes, `path.join` and `process.cwd()` are not modelled. The logos folder is a map from file name to contents.
- Body fields are taken to be present strings. A missing `clientName`, `projectId`, `environment` or `brandColor` (JavaScript `undefined`) is not modelled. `backgroundPath` may be missing and is an `Option`.
- Ascii.ToLower: lower-cases only ASCII letters. JavaScript's `toLowerCase` also maps non-ASCII letters.
- UploadRoute.Sanitize (and with it UploadRoute.SanitizeAt): works on characters (Unicode scalar values), while the JavaScript regular expression works on UTF-16 code units. A character outside the Basic Multilingual Plane becomes one '_' here and two in JavaScript.
- If the form holds several `file` entries, only the one the handler reads (the first) is modelled.
- The Prisma-backed `src/app/api/demos/[id]/route.ts` is not part of this model. Neither are the pages, the login forms, the riddle dialog and the loader, which are user interface.
