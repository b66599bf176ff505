# go-deepl response classification, credential lookup and endpoint resolution

A Dafny model of the logic core of the `deepl` Go package, a client for the DeepL translation web API. It covers three parts.

- **Response classifier** (`deepl/deepl.go`). `responseParse` refuses a nil response or a nil target. It wraps a failed body read. Otherwise it hands the status code and the body to `treatBodyAsErr`. For status 200 that decodes the body into the target. For any other status it builds an error:
  - first it decodes the body as an `ErrorResponse`, unless the body is empty; a malformed error body is reported before the status is looked at;
  - then it picks the template for the status: the eight exact codes 400, 401, 403, 404, 413, 429, 456 (the vendor's "quota exceeded") and 503, then the 500–599 sweep, then the catch-all;
  - it fills in the body's `message` and, for the last two categories, the status code.
- **Credential lookup** (`getAPIKey`). It reads the API key from an environment variable. An absent variable and an empty one are two different errors.
- **Endpoint resolver** (`deepl/api_type.go`). It maps an `APIType` (free, pro, custom or any other int) to a base URL. A package-level override set by `SetCustomURL` wins for every type when it is non-empty.

Modules:

- `Wrappers` (wrappers.dfy): `Option`, `Result`, prefix and suffix predicates.
- `Errors` (errors.dfy): the error values of `errors.go`. `NewErr` makes a leaf. `WrapIfErr` wraps a cause with a context. `Message` gives the text `Error()` returns, which is `"<context>: <cause>"` as github.com/pkg/errors renders it.
- `Decimal` (decimal.dfy): Go's `%d` for an int, and a parser that reads it back.
- `DeepL` (deepl.dfy): constants, response shapes, `GetAPIKey`, `DecodeBody`, `CategoryOf`, `Headline`, `Template`, `StatusText`, `TreatBodyAsErr`, `ResponseParse`.
- `DeepLProperties` (deepl_properties.dfy): precedence and text lemmas about the classifier.
- `ErrorText` (error_text.dfy): reads the status and the returned message back out of an error's text.
- `APITypes` (api_type.dfy): the `Package` class holding `baseURLCustom`, with `SetCustomURL`, `BaseURL` and `String`.

Some collaborators become parameters:

- JSON decoding (`encoding/json`) is an `Unmarshal<T> = Bytes -> Result<T, string>`: the decoded value, or the decoder's error text.
- Reading the body (`ioReadAll`) is the `Result<Bytes, Error>` stored in a `Response`.
- The environment (`os.LookupEnv`) is a `map<string, string>`.
- The variable name (`NameEnvKeyAPI`, default `"DEEPL_API_KEY"`) is an argument.

`treatBodyAsErr` fills the caller's target in place. Here the filled value is the `Success` value of the result.

- The 404 text keeps the code's spelling "The requested resource clould not be found" (deepl/deepl.go:136).
- Errors are message texts; `Category` only names which format text the switch picks.

## Model

| member | source | states |
|---|---|---|
| Errors.Message | deepl/errors.go:69-82 | a wrapped error's text opens with "<context>: " and ends with the cause's text; a leaf's text is its own |
| Errors.RootCause | deepl/errors.go:69-82 | a helper over the chain WrapIfErr builds: its innermost error is a leaf, and a leaf is its own root |
| Errors.RootCauseEndsMessage | deepl/deepl_test.go:119-124 | the root cause's text is a suffix of the text of every error wrapped around it (the underlying reason stays visible) |
| Errors.TwoContextsOpenMessage | deepl/deepl_test.go:146-150 | an error wrapped twice opens with the outer context, then the inner one |
| Errors.WrapIfErr | deepl/errors.go:69-82 | nil in gives nil out; otherwise the result is exactly the cause wrapped in the context, so its text opens with the context, ends with the cause's text and keeps the cause's root |
| Decimal.NatToDecimal | deepl/deepl.go:153-154 | `%d` of a non-negative value is a non-empty digit string with no leading zero, one digit exactly below 10 |
| Decimal.IntToDecimal | deepl/deepl.go:158-159 | `%d` of any int is non-empty, made of digits and '-', and starts with '-' exactly for negatives |
| Decimal.ParseNatToDecimal | deepl/deepl.go:153-154 | reading the digits `%d` prints gives back the value |
| Decimal.ParseIntToDecimal | deepl/deepl.go:158-159 | reading back `%d` of any int, sign included, gives that int |
| Decimal.NumericPrefixOf | deepl/deepl.go:153-154 | a `%d` text followed by ", …" is exactly the numeric prefix, so the status ends where the comma starts |
| DeepL.GetAPIKey | deepl/deepl.go:69-80 | no error iff the variable is present and non-empty, and then the key is its value unchanged; on error the key is ""; absent gives "env variable for API key not set: <name>", empty gives "env var is set but empty: <name>" |
| DeepL.MissingAndEmptyKeyDiffer | deepl/deepl_test.go:60-89 | the absent-variable and empty-variable errors are different |
| DeepL.DecodeBody | deepl/deepl.go:59-65 | succeeds iff the decoder does, with its value; a failure is exactly the decoder's message wrapped once in "failed to decode json", so it opens with "failed to decode json: " and has that message as root |
| DeepL.ExactStatus | deepl/deepl.go:122-149 | the eight exact categories each name one status between 400 and 599 other than 200; the two range categories name none |
| DeepL.Template | deepl/deepl.go:122-159 | each category's format text up to its first verb, as written in the code: its headline sentences, then "Status code: " before the `%d` of the two range categories and "Returned message: " before the `%s` of the others |
| DeepL.CategoryOf | deepl/deepl.go:117-159 | exact codes map to their own category and nothing else does; 500..599 except 503 maps to the internal-server-error category; every other status maps to the unexpected-status category |
| DeepL.StatusText | deepl/deepl.go:122-159 | the error text opens with its category's template and ends with the body message; the two range categories put the `%d` status after the template and ", Returned message: " before the message; the lengths add up |
| DeepL.TreatBodyAsErr | deepl/deepl.go:100-160 | status 200 succeeds iff the target decodes, with the decoded value, otherwise "failed to parse JSON response" wraps the decode failure; any other status fails; a non-empty malformed error body gives "failed to decode error response" around the decode failure; otherwise the error is StatusText of the status and the body's message ("" for an empty body) |
| DeepL.ResponseParse | deepl/deepl.go:83-94 | a nil response or target gives "the input was nil" whatever the body; a failed read gives exactly the read error wrapped in "failed to read response"; otherwise the result is the classification of status and body |
| DeepLProperties.OKNeverDecodesErrorBody | deepl/deepl.go:108-121 | for status 200 the result does not depend on the error-body decoder; a target decode failure reads "failed to parse JSON response: failed to decode json: …" |
| DeepLProperties.OKEmptyBodyFails | deepl/deepl_test.go:49-57 | with a decoder that refuses empty input, status 200 with an empty body fails as a JSON parse failure |
| DeepLProperties.MalformedErrorBodyWhateverStatus | deepl/deepl.go:108-112 | a non-empty body that is not an ErrorResponse gives the same error for every status other than 200, reading "failed to decode error response: failed to decode json: …" and ending with the decoder's message |
| DeepLProperties.EmptyBodyNeverDecodes | deepl/deepl.go:101-115 | for a status other than 200 and an empty body, no decoder is consulted and the message filled in is "" |
| DeepLProperties.ExactCodeTemplates | deepl/deepl.go:122-149 | each of the eight exact codes gives its category's fixed template followed by the body's message verbatim |
| DeepLProperties.NotFoundTemplate | deepl/deepl.go:135-136 | the 404 format text is "Not found. The requested resource clould not be found. Returned message: ", spelling as in the code |
| DeepLProperties.InternalServerErrorTemplate | deepl/deepl.go:152-153 | the 500..599 format text is "Internal server error. Please try again later. Status code: " |
| DeepLProperties.UnexpectedStatusTemplate | deepl/deepl.go:158 | the catch-all format text is "Unexpected error. Status code: " |
| DeepLProperties.ServerErrorSweep | deepl/deepl.go:150-155 | every status in 500..599 other than 503 reads "Internal server error. Please try again later. Status code: <status>, Returned message: <msg>" |
| DeepLProperties.UnexpectedStatusCatchAll | deepl/deepl.go:158-159 | every other non-200 status reads "Unexpected error. Status code: <status>, Returned message: <msg>" |
| DeepLProperties.Status500Text | deepl/deepl_test.go:271-278 | status 500 reads "Internal server error. … Status code: 500, Returned message: <msg>" |
| DeepLProperties.Status999Text | deepl/deepl_test.go:279-286 | status 999 reads "Unexpected error. Status code: 999, Returned message: <msg>" |
| ErrorText.ReadsStatusAndMessage | deepl/deepl.go:153-159 | "<status>, Returned message: <msg>" reads back as that status and that message |
| ErrorText.StatusTextReadsBack | deepl/deepl.go:122-159 | for every status other than 200, reading an error text back under its category gives the message it was built from, and also the status for the two range categories |
| APITypes.Package.constructor | deepl/api_type.go:24-25 | the override starts as Go's empty string |
| APITypes.Package.SetCustomURL | deepl/api_type.go:20-22 | only the override changes; a non-empty URL makes every API type resolve to it; "" brings back the free and pro URLs and the empty custom URL |
| APITypes.Package.BaseURL | deepl/api_type.go:34-52 | a non-empty override wins for every type; otherwise free is "https://api-free.deepl.com", pro is "https://api.deepl.com", custom and every unnamed value are ""; the URL is "" exactly in that last case; it only reads the override |
| APITypes.Package.String | deepl/api_type.go:29-31 | the Stringer gives the same URL as BaseURL under every override |
| APITypes.OverrideAndClear | deepl/examples_test.go:113-128 | with an override set, free, pro and custom all print the override; after clearing it they print the free URL, the pro URL and "" |

## Left out

- `deepl/client.go` (`New`, `GetAccountStatus`, `Translate`) is not part of this model. Request building, sending and URL parsing or joining belong to `net/http`, `net/url` and `path`, whose behaviour is not visible here.
- JSON decoding is a parameter. Any decoder can be plugged in. So the model does not show that `{"character_count": 10, "character_limit": 20}` decodes to `AccountStatus(10, 20)`.
- DeepL.TreatBodyAsErr: the target is returned as a value, not filled in place. A decoder that fills part of the target before failing is not modelled. Neither is a JSON `null` body that leaves the target untouched.
- The " (file: …, line: …)" position that `getErrorPos` appends when `AppendErrPos` is true (the package default is true, deepl/errors.go:20) is left out. It comes from `runtime.Caller`. With the default, every `NewErr` text ends in that stamp and every `WrapIfErr` context carries it before ": ". So the texts stated here, and the suffix and prefix ensures about them, describe the output with `AppendErrPos` set to false.
- Three paths of `errors.go` that the core never takes are left out: `NewErr` with no arguments returning nil, `fmtArgs` with a non-string first argument, and `WrapIfErr` without a message.
- DeepL.ResponseParse: a nil target is a boolean. A typed nil pointer stored in the interface is not told apart from a nil interface.
- ErrorText.StatusTextReadsBack: the category is an input to the reader. That the ten templates tell the categories apart by themselves is not proved.
- The logger, the User-Agent header and context propagation are left out. They do not affect classification or resolution.
- Concurrent changes to the override (a data race in the source) are not modelled. The model is sequential.
