# oxipng-worker request handling, modelled in Dafny

This project models the request-decision logic of `oxipng-worker`, a
Cloudflare Worker that takes a PNG upload, checks it, and hands it to the
oxipng optimizer. Everything is written as pure functions over immutable
values:

- `Router` — the fetch entry point: exact (method, path) dispatch of
  `POST /form`, `OPTIONS /` and `GET /worker-version`, with the router's
  default for any other request.
- `Upload` — the `POST /form` handler. It is split into a pure decision
  (`TakeIn`, then `PlanAsWritten` / `Plan`) and `Finish`, which is the only
  place the optimizer is applied. The optimizer (`optimize_from_memory`) is a
  parameter of type `Engine`. Its options (`Options::from_preset`) are an
  opaque value tagged with the preset level.
- `Mode` — selection of the optimization preset from the optional `mode`
  form entry, including the `parse::<u8>()` whose `unwrap` the model shows
  cannot fail.
- `Png` — the 8-byte PNG signature test.
- `Preflight` — the `OPTIONS /` handler and the process-wide CORS policy
  (max-age 86400, origins `*`, methods GET, HEAD, POST, OPTIONS).
- `Form`, `Http`, `Wrappers` — the outcomes of multipart parsing and file
  reading, the response shapes, and `Option`/`Result`.

A handler's result is an `Http.Outcome`: a response, an error propagated
with `?`, or a panic. A response records its status, its body and the CORS
policy attached to it, if any. The `content-type: image/png` headers built at
src/lib.rs:56-57 are never attached to the success response at line 68.
The model therefore says nothing about a content type on that response.

Multipart parsing, `file.bytes()` and the header lookups are foreign
asynchronous I/O. They appear as their results: a `FormParse` value, a
`FileRead` value, and a `Headers` function from header name to lookup
result. The `.transpose()` at src/lib.rs:80-84 makes a header lookup that
fails count as present, and `Preflight.Handle` keeps that behaviour.

## Model

| member | source | states |
|---|---|---|
| `Mode.Resolve` | src/lib.rs:47-53 | the resolved preset is always between 1 and 6, and the `unwrap` of the parse never fails |
| `Mode.ParseU8` | src/lib.rs:49 | parsing a text as a `u8` gives a value below 256 or nothing |
| `Mode.ParseDigitText` | src/lib.rs:49 | parsing the one-digit text of `k` gives `k` |
| `Mode.PresetTextsAreDigits` | src/lib.rs:48-49 | the accepted texts are exactly the one-digit texts of 1 to 6 |
| `Mode.FieldSelectsItsDigit` | src/lib.rs:48-49 | a `mode` field whose text is the digit `k` (1 to 6) selects preset `k` |
| `Mode.OtherTextFallsBack` | src/lib.rs:50 | a `mode` field with any other text selects preset 6 |
| `Mode.NonFieldFallsBack` | src/lib.rs:52 | a file part under `mode`, or no `mode` entry, selects preset 6 |
| `Mode.NonDefaultComesFromField` | src/lib.rs:47-53 | a preset other than 6 is chosen only by a `mode` field spelling that digit |
| `Mode.ResolveForm` | src/lib.rs:47 | the preset read from a form's `mode` entry is between 1 and 6 |
| `Png.MismatchIffNoSignature` | src/lib.rs:63-65 | for buffers of at least 8 bytes, the slice comparison fails exactly when the buffer does not start with `89 50 4E 47 0D 0A 1A 0A` |
| `Png.MismatchIgnoresTail` | src/lib.rs:63 | only the first 8 bytes decide the signature test |
| `Upload.OptionsFor` | src/lib.rs:55 | the options built for a form carry a preset level between 1 and 6 |
| `Upload.TakeIn` | src/lib.rs:42-59 | the form, `image` and read steps stop early, or load bytes exactly when `image` is a file that was read; loaded bytes are that file's and the options are those of the resolved mode |
| `Upload.PlanAsWritten` | src/lib.rs:42-75 | the optimizer is planned only for a signed buffer read from the `image` file, with the resolved mode's options; the plan panics exactly when that file has fewer than 8 bytes |
| `Upload.Plan` | src/lib.rs:59-67 | the corrected plan (see Findings): with the length guard the plan never panics, and it still plans the optimizer only for a signed `image` buffer with the resolved mode's options |
| `Upload.ParseFailureFirst` | src/lib.rs:75 | a form that does not parse gets 400 "There was no Form-Data", whatever the optimizer does |
| `Upload.MissingImageRejected` | src/lib.rs:73 | a form without an `image` key gets 400 "There was no 'image' key in Form-Data", whatever else it holds |
| `Upload.ImageFieldRejected` | src/lib.rs:72 | an `image` text field gets 400 "Invalid file", whatever the mode and the optimizer |
| `Upload.ReadFailurePropagated` | src/lib.rs:45-59 | a failed file read becomes the handler's error, before the signature check and without the optimizer |
| `Upload.SignatureDecides` | src/lib.rs:63-65 | for a read file of at least 8 bytes, the answer is 400 "Invalid PNG header detected" if and only if the buffer lacks the signature |
| `Upload.ShortBufferPanics` | src/lib.rs:63 | a read file shorter than 8 bytes makes the handler as written panic |
| `Upload.EmptyImagePanics` | src/lib.rs:63 | an empty `image` file makes the handler as written panic |
| `Upload.EngineResultReturned` | src/lib.rs:55-70 | a signed buffer goes to the optimizer with the resolved mode's preset; its output is the body of a 200 and its error text the body of a 500 |
| `Upload.OptimizerSeesOnlySignedBuffers` | src/lib.rs:63-67 | two optimizers that agree on signed buffers with the resolved options give the same outcome on every form |
| `Upload.ResponseShapes` | src/lib.rs:64-75 | every response is a 200 with bytes, or a 400 or 500 with text, and none carries CORS headers |
| `Upload.ServerErrorOnlyFromOptimizer` | src/lib.rs:67-70 | the answer is a 500 exactly when the optimizer was planned and failed |
| `Upload.GuardAgreesWhereDefined` | src/lib.rs:63-70 | wherever the handler as written does not panic, the guarded handler answers the same |
| `Upload.GuardRejectsEveryUnsignedBuffer` | src/lib.rs:63-65 | the guarded handler never panics on a read file and answers 400 "Invalid PNG header detected" exactly when the buffer lacks the signature, short buffers included |
| `Preflight.Handle` | src/lib.rs:78-88 | the answer is an empty 200 that carries the CORS policy exactly when none of the three preflight header lookups comes back absent |
| `Preflight.AllThreePresentGetPolicy` | src/lib.rs:10-19 | with all three headers present, the policy attached is max-age 86400, origins `*`, methods GET, HEAD, POST, OPTIONS |
| `Preflight.AnyMissingIsPlain` | src/lib.rs:86-88 | without any one of the three headers the answer is the plain empty 200 with no CORS headers |
| `Router.Match` | src/lib.rs:40-94 | a route is found exactly when some table entry has this method and path, and the route found is that of the first such entry |
| `Router.DispatchIsExact` | src/lib.rs:40-93 | each handler is reached by exactly one (method, path) pair, and every other request gets the router's default |
| `Router.Serve` | src/lib.rs:38-96 | `POST /form` is answered by the upload handler as written (panicking on a short file), `OPTIONS /` by the preflight handler, `GET /worker-version` by the version lookup, and only unrouted requests by the default |
| `Router.ServeGuarded` | src/lib.rs:59-67 | the corrected entry point (see Findings): `POST /form` goes to the guarded upload handler, every request the code as written does not panic on is answered as `Router.Serve` answers it, and no request panics |
| `Router.OptimizerOnlyOnUploadRoute` | src/lib.rs:40-94 | the optimizer cannot influence any request other than `POST /form` |
| `Router.CorsOnlyOnPreflight` | src/lib.rs:40-94 | no response outside `OPTIONS /` carries CORS headers |
| `Scenarios.SignatureOnlyNoMode` | src/lib.rs:47-68 | a bare 8-byte signature with no `mode` is optimized with preset 6 and the output returned with 200 |
| `Scenarios.ImageAsText` | src/lib.rs:72 | an `image` entry holding the text "hello" gets 400 "Invalid file" |
| `Scenarios.ModeThreeOptimizerFails` | src/lib.rs:47-69 | mode "3" reaches the optimizer as preset 3, and its failure "corrupt chunk" becomes a 500 with that text |
| `Scenarios.NoFormData` | src/lib.rs:75 | a body that is not form data gets 400 "There was no Form-Data" |
| `Scenarios.WrongMethodNotRouted` | src/lib.rs:40-94 | `GET /form` is not routed and gets the router's default |
| `Scenarios.EmptyImageEndToEnd` | src/lib.rs:63 | an empty `image` file on `POST /form` panics the entry point as written, and the guarded entry point answers 400 "Invalid PNG header detected" |

## Left out

- Request logging (`log_request`): console output, the wall clock and Cloudflare geo metadata, with no decision in it.
- `utils::set_panic_hook`: start-up code that is not part of this model.
- The `/worker-version` handler body: an environment-variable lookup. The model only shows that the route reaches it (`Router.VersionLookup`).
- The router's default answer (404 or 405 in the `worker` crate) is library behaviour; the model only shows that the default is reached (`Router.RouterDefault`).
- oxipng itself: the optimizer is an arbitrary `Upload.Engine` and its options are opaque, so nothing is claimed about the optimized bytes.
- Multipart parsing, `file.bytes()` and header lookup: foreign asynchronous I/O, modelled by their results. A form key given more than once is reduced to one entry.
- `async`/`await`: each request is one sequential call; interleaving between requests is not modelled, and no state is shared.
- The fallible `headers.set` at src/lib.rs:57 and the failure cases of `Response::from_bytes`, `Response::error`, `Response::empty` and `with_cors`: library behaviour that cannot fail for the constant arguments used here.
- The header lines `with_cors` emits: the model records only which policy was attached.
- Determinism of the optimizer is not stated as a separate property: `Engine` is a function, so the same buffer and preset always give the same outcome.

## Findings

| source | as written | input that shows it | evidently intended | confidence | as-written member | corrected member |
|---|---|---|---|---|---|---|
| src/lib.rs:63 | `bytes[0..8]` is taken without checking the length, so the handler panics on a short file | an `image` file part with 0 to 7 bytes, for example an empty file | reject it like any other non-PNG buffer: 400 "Invalid PNG header detected" | high, not executed | `Upload.EmptyImagePanics` | `Upload.GuardRejectsEveryUnsignedBuffer` |

`Upload.PlanAsWritten`, `Upload.HandleAsWritten` and `Router.Serve` keep the
panic as an explicit outcome; `Scenarios.EmptyImageEndToEnd` shows it end to
end. `Upload.Plan`, `Upload.Handle` and `Router.ServeGuarded` add the length
guard. `Upload.GuardAgreesWhereDefined` and the contract of
`Router.ServeGuarded` show that the guard changes nothing for any input on
which the code as written does not panic.
