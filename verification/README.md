# Nearby places and user normalisation, modelled in Dafny

A small Flask application (routes.py) lets users sign up and look up points
of interest near an address. Two parts of it carry logic of their own, and
those are modelled here:

- **The `Place` class.** It converts a distance into whole minutes of
  walking at 80 meters a minute. It builds an encyclopedia link from a page
  title by turning spaces into `_` and joining the result onto
  `http://en.wikipedia.org/wiki/`. Its `query` loop turns the parsed
  geosearch response into one record per candidate (`name`, `url`, `time`,
  `lat`, `lng`), in the response's order. Any exception while doing so
  aborts the whole call, so no partial list is ever returned.
- **The `User` constructor.** It title-cases the first and last names,
  lowers the e-mail address and keeps only a hash of the password.

Files:

- `wrappers.dfy`: `Result`, the failure-compatible type that stands for a
  raised exception.
- `json.dfy`: the value that `json.loads` produces.
- `text_case.dfy`: `str.lower()` and `str.title()` over ASCII, with
  idempotence and case-insensitivity lemmas.
- `place.dfy`: walking time, slug and link, the shaping of one candidate,
  the whole loop as the method `Query`, and the lemmas about them.
- `place_examples.dfy`: the worked examples (0, 79, 80, 800 and 240 meters;
  "Golden Gate Park"; a response with one candidate).
- `accounts.dfy`: the `User` class, and how a stored address is matched
  at login.

`Query` is an imperative loop that appends to a list. It is proved equal to
the pure function `QueryResult`. The lemmas about `ShapeAll` then give the
promised properties: exactly one record per candidate, in order, each
derived field as stated, and on failure the error of the first malformed
candidate.

Some behaviours of the code worth noting:

- The link is joined with `urljoin`, which does not percent-encode the
  title.
- The response is read as `query` → `geosearch` → entries with `title`,
  `dist`, `lat` and `lon`.
- Any value that Python accepts in the loop is accepted by the model too. A
  boolean distance divides like 1 or 0. An empty dictionary or an empty
  string in place of the list gives no records.
- A geocoder that finds nothing does not raise an error at routes.py:50-51.
  That part is not modelled (see below).

routes.py:47 and routes.py:57 call `urllib2`, which is never imported, so
both raise NameError as written. `WikiPath` models the evidently intended
`urljoin`, and the defect is recorded under Findings.

## Model

| member | source | states |
|---|---|---|
| `TextCase.Lower` | routes.py:32 | the lowered address has the same length, and each character is the small letter of a capital and unchanged otherwise |
| `TextCase.Title` | routes.py:30-31 | the title-cased name has the same length; a character that starts a word (first, or after a character without case) is raised, every other one is lowered |
| `TextCase.LowerIdempotent` | routes.py:32 | lowering an already lowered address changes nothing |
| `TextCase.LowerEqualIff` | routes.py:32 | two addresses lower to the same string exactly when they have the same length and agree up to ASCII case |
| `TextCase.TitleIdempotent` | routes.py:30-31 | title-casing an already title-cased name changes nothing |
| `TextCase.LowerOfTitle` | routes.py:30-31 | title-casing changes only the case of letters: lowering before or after gives the same string |
| `TextCase.TitleAtHyphen` | routes.py:30-31 | "mary-ann" becomes "Mary-Ann": a hyphen starts a new word |
| `TextCase.TitleAtApostrophe` | routes.py:30-31 | "o'neil" becomes "O'Neil": so does an apostrophe |
| `TextCase.TitleInsideWord` | routes.py:30-31 | "McDONALD" becomes "Mcdonald": capitals inside a word are lowered |
| `TextCase.TitleAfterDigit` | routes.py:30-31 | "2nd" becomes "2Nd": a digit has no case, so the next letter is raised |
| `TextCase.LowerExample` | routes.py:32 | "Ann@Ex.COM" is stored as "ann@ex.com" |
| `Place.WalkingTime` | routes.py:42-44 | for a non-negative distance m the result t is non-negative with 80·t ≤ m < 80·(t+1); for a negative one the quotient is truncated toward zero |
| `Place.WalkingTimeOfWholeMeters` | routes.py:42-44 | for a whole number of meters the walking time is its integer quotient by 80 |
| `Place.WalkingTimeMonotonic` | routes.py:44 | a longer distance never gives fewer minutes |
| `PlaceExamples.WalkingTimeExamples` | routes.py:42-44 | 0 and 79 meters give 0 minutes, 80 give 1, 800 give 10 and 240 give 3 |
| `Place.Slug` | routes.py:47 | `title.replace(' ', '_')`: the slug has the title's length, no space is left, and every character other than a space is kept |
| `Place.SlugReplacesOnlySpaces` | routes.py:47 | the slug has the title's length, every space becomes `_`, every other character stays, no space remains, and a title without spaces is its own slug |
| `Place.WikiPath` | routes.py:46-47 | the intended `wiki_path`: the link is resolved exactly for a `SimpleTitle` (its text is stated by `WikiPathOfTitle`) |
| `Place.SlugSimpleIff` | routes.py:46-47 | the slug is a reference that joins by plain concatenation exactly when the title is simple |
| `Place.WikiPathOfTitle` | routes.py:46-47 | the link is resolved exactly for simple titles, and is then the base followed by the title with spaces turned into `_`, character by character |
| `PlaceExamples.GoldenGatePark` | routes.py:46-47 | "Golden Gate Park" links to `http://en.wikipedia.org/wiki/Golden_Gate_Park` |
| `PlaceExamples.ParamsTitleUnresolved` | routes.py:46-47 | "Foo;" is not a simple title: `urljoin` would split off its `;params`, so its link is left `Unresolved` rather than claimed to be the base followed by the title |
| `Place.WikiPathAsWritten` | routes.py:46-47 | `wiki_path` as written raises on every title, since `urllib2` is undefined |
| `PlaceExamples.WikiPathAsWrittenFails` | routes.py:46-47 | as written, `wiki_path` raises NameError even for "Golden Gate Park", for which the intended join gives a link |
| `Place.Iterate` | routes.py:64 | `for place in g` gets through exactly for a list, a string or an empty dictionary; a list gives its elements, a string as many strings as it has characters (so the first subscript fails); null, booleans and numbers are not iterable |
| `Place.Candidates` | routes.py:64 | `data['query']['geosearch']` as the sequence iterated: KeyError on a missing section, then `Iterate` (stated by `QueryMissingSections` and `QueryOfGeosearchValue`) |
| `Place.ShapePlace` | routes.py:65-79 | one candidate gives a record exactly when it is a dictionary with `title`, `dist`, `lat` and `lon`, a string title and a numeric distance; the record then copies the title to `name` and `lat`/`lon` to `lat`/`lng` and sets `url` to the title's link and `time` to the distance's walking time |
| `Place.ShapePlaceMissingKey` | routes.py:65-68 | a candidate lacking required keys fails with KeyError on the first one missing, in the order `title`, `dist`, `lat`, `lon` |
| `Place.ShapeAll` | routes.py:63-83 | when shaping succeeds it gives one record per candidate, record i being what candidate i shapes to (the converse and the failure case are stated by `ShapeAllSucceeds` and `ShapeAllFirstFailure`) |
| `Place.ShapeAllSucceeds` | routes.py:63-83 | shaping succeeds exactly when every candidate does, and then gives one record per candidate, record i from candidate i |
| `Place.ShapeAllFirstFailure` | routes.py:63-83 | if the first failing candidate is k, the call fails with k's error |
| `Place.QueryResult` | routes.py:61-83 | what `query` returns from the parsed response: one record per candidate, in order, each field as stated for `ShapePlace`, or the first error (stated by `QueryOneRecordPerCandidate`, `QueryFailsAtFirstMalformed`, `QueryMissingSections` and `QueryOfGeosearchValue`) |
| `Place.Query` | routes.py:61-83 | the loop that starts from an empty list and appends one record per candidate returns exactly `QueryResult` of the parsed response, failures included |
| `Place.QueryOneRecordPerCandidate` | routes.py:63-83 | when the response has its candidate list, `query` succeeds exactly when every candidate is well formed, and returns one record per candidate, in order, with each field as stated for `ShapePlace` |
| `Place.QueryFailsAtFirstMalformed` | routes.py:64-83 | the error of the whole call is that of the first malformed candidate, and no list is returned |
| `Place.QueryMissingSections` | routes.py:64 | a response without `query`, or whose `query` has no `geosearch`, fails with KeyError on that key |
| `Place.QueryOfGeosearchValue` | routes.py:64 | a list is shaped element by element; a dictionary or a string succeeds (with no records) only when empty and otherwise fails with TypeError; null, booleans and numbers cannot be iterated |
| `Place.QuerySingleCandidate` | routes.py:63-83 | a response with one well-formed candidate gives exactly its one record |
| `PlaceExamples.QueryExample` | routes.py:63-83 | the candidate "Example Park" at 240 m gives one record named "Example Park", linking to `.../wiki/Example_Park`, with a walking time of 3 and the coordinates passed through |
| `Accounts.User.constructor` | routes.py:29-33 | the stored names are title-cased, the stored address is lowered, only the hash of the password is kept, and all fields are already in normal form |
| `Accounts.User.SetPassword` | routes.py:35-36 | the stored hash is replaced by the hash of the new password and no other field changes |
| `Accounts.LoginFindsAsWritten` | routes.py:154-159 | the lookup as written, `filter_by(email=...)` on the raw typed address: finds the stored address only when it is typed exactly (it misses the signup address itself, stated by `MixedCaseLoginMisses`) |
| `Accounts.MixedCaseLoginMisses` | routes.py:154-159 | as written, signing up as "Ann@Example.com" and logging in with the same address finds no account |
| `Accounts.LoginFinds` | routes.py:154-159 | the corrected lookup, lowering the typed address as signup does: finds exactly the case variants of the signup address (stated by `LoginFindsCaseVariants` and `NormalizedUserLogin`) |
| `Accounts.LoginFindsCaseVariants` | routes.py:154-159 | with the corrected lookup, the address typed at signup always finds the account, and exactly the addresses that agree with it up to ASCII case do |
| `Accounts.NormalizedUserLogin` | routes.py:154-159 | for an account as the constructor leaves it, the corrected lookup finds every address the lookup as written finds, and exactly the addresses that agree with the stored one up to ASCII case |

## Left out

- Geocoding (`address_to_latlng`, routes.py:49-51) is a call into a network service. No coordinates are modelled. Latitude and longitude are passed through as opaque JSON values.
- Building the request URL, the HTTP fetch and `json.loads` (routes.py:56-61) are formatting of floats, I/O and library code. The model starts from the parsed value. JSON's non-standard `NaN` and `Infinity`, which `json.loads` accepts, are not representable.
- Place.WalkingTime: the division is exact rational arithmetic, not IEEE floating point. A distance a hair below a multiple of 80 may round differently in Python. Integers too large for a float are not modelled either.
- Place.WikiPathOfTitle: general reference resolution by `urljoin` (section 5.2 of RFC 3986, plus the `;params` split of RFC 1808 for `http`) is library behaviour and is not modelled. A reference with `:`, `/`, `;`, `?`, `#`, a character at or below U+0020 (the ASCII space and the C0 controls), or a dot segment is kept as `Unresolved`. The model says nothing about the URL Python builds for it. For C0 controls inside the title this exclusion is conservative: Python strips them only at the start and removes only tab, CR and LF elsewhere, so it concatenates a title like "a\u0001b". Characters above U+0020, such as DEL or a non-breaking space, are concatenated by both.
- Place.WikiPath: the same gap. It is exact only for simple titles; for any other title it returns `Unresolved` and does not state what `urljoin` gives.
- Place.ShapePlace: `urljoin` raises `ValueError` for some references that the model keeps as `Unresolved`, for example one that starts with `//` and whose host part has an unbalanced bracket ("//[x"). Python then aborts the whole `query`. The model instead yields a record with an `Unresolved` link. Its "a record exactly when well formed" is therefore exact only for candidates with simple titles.
- Place.QueryOneRecordPerCandidate: inherits that gap. For a title like "//[x", Python raises where the model returns a record with an `Unresolved` link.
- Place.QueryFailsAtFirstMalformed: inherits that gap. If an earlier candidate has a title like "//[x", Python raises ValueError before it reaches candidate k, while the model reports candidate k's error.
- Place.QuerySingleCandidate: inherits it too. Its record for a title like "//[x" is one that Python never returns.
- TextCase.Title and TextCase.Lower: characters outside ASCII are treated as having no case and are kept unchanged. Python's Unicode rules differ: it lowers `É`, and it counts `é` as cased when deciding where a word starts.
- Password hashing (`generate_password_hash`, `check_password_hash`, routes.py:36-39) is an opaque, salted primitive. The hash is a function parameter of the constructor and of `SetPassword`. `check_password` only delegates to the primitive and is not modelled.
- The database side of `User` (`uid`, column length limits, the unique address, sessions and commits, routes.py:20-27 and 107-108) is not modelled.
- The Flask routes, the session cookie, redirects and templates (routes.py:87-170) are framework plumbing. `home` geocodes the address twice (routes.py:135-136); that is not modelled either.
- forms.py is declarative WTForms validator configuration whose behaviour lives in the library.

## Findings

| source | as written | input that shows it | evidently intended | confidence | as-written member | corrected member |
|---|---|---|---|---|---|---|
| routes.py:47 | `wiki_path` calls `urllib2.urlparse.urljoin`, but routes.py:7 imports only `urllib.request`, so the name `urllib2` is undefined | any title, e.g. "Golden Gate Park" (`PlaceExamples.WikiPathAsWrittenFails`) | `urljoin` of the base and the slug, from `urllib.parse` | high; not executed | `Place.WikiPathAsWritten` | `Place.WikiPath` |
| routes.py:154-159 | login looks the account up by the address exactly as typed, but signup stored it lowered (routes.py:32, 106-108) | sign up as "Ann@Example.com", then log in with "Ann@Example.com" (`Accounts.MixedCaseLoginMisses`) | lower the typed address before the lookup, as signup does | medium; not executed | `Accounts.LoginFindsAsWritten` | `Accounts.LoginFinds` |
