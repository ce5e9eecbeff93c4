# Bharakt backend: address resolver and NGO campaign handlers, in Dafny

This project models the two parts of the Bharakt blood-donation backend that make decisions:

- **The address resolver** (`backend/services/geocodeService.js`, module `Geocode`).
  `geocodeAddress` turns a free-text address into a coordinate or null:
  - A blank address (undefined, null, empty, or whitespace by JavaScript's `trim`) gives null with no request.
  - Google's geocoding API is asked only when `GOOGLE_MAPS_API_KEY` is set and non-empty.
  - A Google success is returned at once.
  - Otherwise OpenStreetMap Nominatim is asked exactly once, and null is returned when it fails too.
  - `geocodeAddressRequired` turns a blank address and a null result into two distinct errors.

  Provider replies are input values, and each resolution reports the providers it sent a request to, in order.
  The adapters' acceptance rules are stated over those replies:
  - Google accepts only status `OK` with a non-empty `results` list.
  - Nominatim accepts only a non-empty array, and its `lon` becomes `lng`.

  Beside the straight-line resolver, a reference definition runs an ordered provider chain until the first success (`RunChain`).
  The resolver is proved equal to that chain for every non-blank address.
- **The NGO route handlers** (`backend/routes/ngo.js`, modules `NgoTables` and `NgoRoutes`).
  The `campaigns`, `ngos` and `blood_banks` tables are `map` fields of one `NgoStore` object.
  Each handler is a method that changes those fields in place and returns the HTTP status it answers with:
  - profile update and campaign update use COALESCE (a null input keeps the stored value);
  - change-password rejects a wrong current password;
  - the dashboard stats count the caller's campaigns;
  - create validates, inserts, bumps `campaigns_count` and sends partner invitations;
  - end validates the units, ownership and status;
  - delete removes only the caller's own row.

  The methods' contracts give the whole new state of the tables. Lemmas on the row-level functions show the effect on the per-NGO active and total counts.

Behaviours of the code that the model keeps as written:

- The comment at `backend/services/geocodeService.js:3` says Nominatim is tried first. The code and the comment at line 72 put Google first, and the model follows the code.
- Create rejects a latitude or longitude sent as the number `0` (JavaScript truthiness, `TruthyNumber`). A string `"0"` is truthy, passes, and is stored as 0 by `parseFloat`; string coordinates are not modelled.
- `campaigns_count = campaigns_count + 1` leaves a NULL count NULL (`BumpCampaignsCount`). Delete never decrements it, so it counts creations, not live rows.
- Campaign update may set any `status`. It can reopen an ended campaign, or set `'ended'` without recording units.
- A missing caller row makes change-password and stats throw (500). In create it makes every invitation's template throw inside its own `try`, so no email is counted.

## Model

| member | source | states |
|---|---|---|
| Geocode.TrimEmptyIffAllWhitespace | backend/services/geocodeService.js:74 | `trim()` gives the empty string exactly when every character is JavaScript whitespace |
| Geocode.BlankIffMissingOrWhitespace | backend/services/geocodeService.js:74-76 | the blank test holds exactly for a missing address or one made only of whitespace |
| Geocode.GoogleGeocode | backend/services/geocodeService.js:38-70 | no API key fails locally whatever the reply; success iff status `OK` and a non-empty results list; the coordinate is the first result's location |
| Geocode.NominatimGeocode | backend/services/geocodeService.js:4-35 | success iff the reply is a non-empty array; lat comes from the first entry's `lat` and lng from its `lon` |
| Geocode.GeocodeAddress | backend/services/geocodeService.js:73-101 | blank gives null with no attempt; each provider at most once, Google first; Google asked iff a key is set; Nominatim asked iff Google did not succeed; Google success short-circuits; a coordinate is the last attempted provider's answer; null iff blank or every attempt failed |
| Geocode.GeocodeAddressRequired | backend/services/geocodeService.js:104-116 | blank throws AddressRequired before any request; a null resolution throws UnableToGeocode; otherwise exactly the resolver's coordinate with the same attempts |
| Geocode.RunChain | backend/services/geocodeService.js:78-100 | trying an ordered chain: attempts are a prefix of the chain, all but the last failed, a success is the last attempt's answer, failure means the whole chain failed |
| Geocode.GeocodeAddressIsChain | backend/services/geocodeService.js:72-101 | for a non-blank address the resolver equals the chain [Google if keyed, Nominatim] run to the first success |
| Geocode.NominatimFieldMapping | backend/services/geocodeService.js:21-25 | without a Google key, a Nominatim entry (lat, lon) resolves to the coordinate (lat, lon) after one Nominatim attempt |
| NgoTables.CoalesceLaws | backend/routes/ngo.js:36-43 | a NULL input keeps the stored value, repeating an update changes nothing, nested COALESCE picks the first non-null value, and a non-null column never becomes NULL |
| NgoTables.PatchCampaign | backend/routes/ngo.js:272-280 | each of the seven columns is replaced only by a non-null input; owner, checkup flag and units never change |
| NgoTables.PatchProfile | backend/routes/ngo.js:34-46 | each of the eight profile columns is replaced only by a non-null input; email, counters and password never change |
| NgoTables.PatchLaws | backend/routes/ngo.js:272-280 | an all-null patch is the identity and applying a patch twice equals applying it once, for campaigns and profiles |
| NgoTables.NewCampaign | backend/routes/ngo.js:125-130 | the inserted row is owned by the caller, `'active'`, with no units, the checkup flag true only when `true` was supplied, and the request's other fields |
| NgoTables.BumpCampaignsCount | backend/routes/ngo.js:133-136 | only the caller's row changes; its count goes up by one, and a NULL count stays NULL |
| NgoTables.ActiveAtMostTotal | backend/routes/ngo.js:88-89 | an NGO's active campaigns are among its campaigns, so active ≤ total |
| NgoTables.InsertCounts | backend/routes/ngo.js:125-130 | inserting under a fresh id adds one to its owner's total, and to its owner's active count when active; other NGOs' counts are unchanged |
| NgoTables.RemoveCounts | backend/routes/ngo.js:347-350 | removing a row lowers its owner's total by one and no other NGO's |
| NgoTables.ReplaceKeepsOwnership | backend/routes/ngo.js:272-282 | rewriting a row without changing its owner keeps every NGO's campaign set |
| NgoTables.EndDropsActive | backend/routes/ngo.js:322-330 | setting a row to `'ended'` removes exactly that row from its owner's active set |
| NgoTables.InvitedStep | backend/routes/ngo.js:166-222 | visiting one more bank adds it to the invited set exactly when it has an email, its send does not throw and the sender row exists |
| NgoTables.InvitedAtMostFound | backend/routes/ngo.js:149-152 | no more invitations count than bank rows were found |
| NgoRoutes.OrZero | backend/routes/ngo.js:97-98 | the zero default on a nullable integer: NULL reads as 0, any other value as itself |
| NgoRoutes.NgoStore.UpdateProfile | backend/routes/ngo.js:30-53 | always 200; only the caller's row changes, by the COALESCE rule; the response is that row's RETURNING columns (no password, no counters); no row means nothing changes and no row is returned |
| NgoRoutes.NgoStore.ChangePassword | backend/routes/ngo.js:56-82 | missing row or current password: 500; wrong current password: 400; missing new password: 500; in all of these the table is unchanged; otherwise 200 and only the caller's digest is replaced |
| NgoRoutes.NgoStore.GetStats | backend/routes/ngo.js:85-104 | missing row: 500; otherwise active = the caller's active campaigns, total = all the caller's campaigns, active ≤ total, and NULL counters read as 0 |
| NgoRoutes.NgoStore.CreateCampaign | backend/routes/ngo.js:107-235 | falsy address, latitude or longitude: 400 and nothing changes; otherwise 201, one new active row owned by the caller under a fresh id, the caller's campaigns_count bumped, total and active each up by one, and the emails counted as SendInvitations states |
| NgoRoutes.NgoStore.SendInvitations | backend/routes/ngo.js:139-223 | the number of emails sent is the number of found banks with an email whose send did not throw, and it is at most the number of banks found |
| NgoRoutes.NgoStore.UpdateCampaign | backend/routes/ngo.js:255-290 | not owned: 404 and nothing changes; owned: 200 and only that row is patched; no NGO's campaign set changes |
| NgoRoutes.NgoStore.EndCampaign | backend/routes/ngo.js:293-340 | missing or negative units: 400 (0 accepted); not owned: 404; already ended: 400; all of these change nothing; otherwise 200, only that row becomes `'ended'` with the units, the total is unchanged and the row leaves the active set |
| NgoRoutes.NgoStore.DeleteCampaign | backend/routes/ngo.js:343-361 | only a row whose id and owner both match is removed (200, the total drops by one); otherwise 404 and the table is unchanged |

## Left out

- Network I/O in both adapters is not modelled. This covers the HTTPS requests, URL encoding, the User-Agent header and the accumulation of response chunks. Each provider's reply is an input value.
- `JSON.parse` is not modelled; its outcome is one of the reply cases.
- Console logging and the error message texts are not modelled.
- Coordinates are Dafny `real` numbers. Floating point, NaN and `parseFloat` are not modelled. Nominatim's `lat`/`lon` arrive already parsed, and request coordinates in create are numbers only (strings that `parseFloat` would read are not modelled).
- bcrypt is a foreign library. `compare` is a function parameter and the digest `hash` produces is an input, because it is salted and not deterministic.
- The email service (`../services/email`) is not part of this model. Which sends throw is an input set of bank ids. The email subject and HTML, and the date formatting, are not modelled.
- The order of the blood-bank rows is not modelled. The loop visits the found banks in an arbitrary order, and the count does not depend on it.
- `ended_at = NOW()` and the `created_at` column are not modelled, since they are clock values.
- GET /profile and GET /campaigns are not modelled. They are plain reads with no decision beyond a 404, and the second orders by `created_at`.
- `Promise.all` in the stats handler is not modelled: the three counts are read one after another from the same state.
- The `auth` and `roleCheck` middleware are not modelled. The caller's NGO id is a parameter.
- Database failures, which the handlers' catch blocks turn into 500, are not modelled. The SQL engine is not modelled beyond the row filters and updates listed above; this includes foreign keys, type coercion of string ids and non-integer units.
- Serial ids are not modelled directly. The campaign id sequence is the field `nextCampaignId`, and the invariant `Valid` says that every stored id is below it.
