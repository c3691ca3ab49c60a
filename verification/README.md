# orangebox: a verified model of its decision logic

orangebox is a small Rust command-line tool that asks the GitHub Actions API
for the workflow runs of one hard-wired repository (`zarkone/literally.el`),
takes the first run of the listing and downloads that run's log archive. Apart
from HTTP, JSON and zip plumbing, `src/main.rs` makes four decisions, and this
project models each of them in Dafny and proves what it does:

- **Conclusion parsing** (`conclusion.dfy`, module `Conclusion`): a run's
  `conclusion` field is read from exactly one of the tokens `success`,
  `failure`, `cancelled`. Anything else is rejected with the error that the
  deserializer's own `custom` constructor builds from the rejected token
  (a parameter of the parser). There is no `Skipped` variant, no case folding
  and no trimming. The program's `UnknownConclusionError` and its `custom`
  are modelled too, but the parser does not build that type.
- **The listing address** (`api_url.dfy`, module `ApiUrl`): `make_api_url`
  puts the repository string, unchanged, between
  `https://api.github.com/repos/` and `/actions/runs`.
- **Reply classification** (`request.dfy`, module `Request`): in both `req`
  (JSON listing) and `req_zip` (log archive) a 403 reply becomes an
  `AccessForbiddenError` holding the reply text verbatim. Any other status
  that reaches this test goes to the decoder, whose error is passed through
  unchanged.
- **Listing decoding, run selection and the flow of `main`** (`listing.dfy`,
  module `Listing`; `main_flow.dfy`, module `MainFlow`): while the listing is
  decoded, every run's conclusion token goes through the parser, and one
  rejected token fails the whole listing, so `main` ends with `"Error"` before
  any run is selected. Of a listing that decodes, the run whose logs are
  fetched is `workflow_runs[0]`, chosen by position: its conclusion plays no
  further part and `total_count` is never read. An empty list makes `main`
  panic.

`wrappers.dfy` holds the `Option` and `Result` datatypes the others use. A
`Result` is `Ok(value)` or `Err(error)`.

The network is a parameter. `fetch: string -> Response` gives the final reply
to a request for an address, after the HTTP client's automatic redirect
following. A `Response` is a status (100 to 999, as the `http` crate allows)
together with the body, seen both as text (`text()`) and as bytes (`bytes()`,
which `json()` also reads). The JSON library's reading of the listing
structure, its `custom` error constructor and `ZipArchive::new` are the
function parameters `json`, `custom` and `openZip`. `RunMain` records the
addresses `main` requests, in order, and how `main` ends: with the opened
archive, with its `"Error"` result, or by a panic.

## Model

| member | source | states |
|---|---|---|
| `Conclusion.Deserialize` | src/main.rs:47-60 | a token is accepted iff it is one of `success`, `failure`, `cancelled`; an accepted token is the spelling of the conclusion it yields; a rejected token gives exactly the error the deserializer's `custom` builds from that token |
| `Conclusion.Custom` | src/main.rs:39-45 | the program's own error built from a message displays exactly that message |
| `Conclusion.ParseToken` | src/main.rs:53-56 | each of `Success`, `Failure`, `Cancelled` is parsed back from its own token |
| `Conclusion.ParseInjective` | src/main.rs:17-21 | two accepted tokens yield the same conclusion iff they are the same token, so the three tokens and the three variants are in one-to-one correspondence |
| `Conclusion.CaseSensitive` | src/main.rs:53-57 | among the case variants of an accepted token only the all-lowercase spelling is accepted |
| `Conclusion.TokenIsLowercase` | src/main.rs:54-56 | every accepted token is already in lowercase |
| `Conclusion.NoTrimming` | src/main.rs:53-57 | an accepted token with any non-empty text before or after it is rejected, with the error `custom` builds from the whole string |
| `Conclusion.RejectsNearMisses` | src/main.rs:57 | `skipped`, `Success`, ` success`, `success `, `FAILURE` and the empty string are each rejected with the error `custom` builds from that string |
| `ApiUrl.MakeApiUrl` | src/main.rs:103-108 | the address starts with the API prefix, ends with `/actions/runs`, and holds the repository string unchanged in between |
| `ApiUrl.RepoOfMakeApiUrl` | src/main.rs:103-108 | the repository is recovered from its listing address |
| `ApiUrl.MakeApiUrlOfRepoOf` | src/main.rs:104-107 | every address of the listing shape is the listing address of the repository it names |
| `ApiUrl.MakeApiUrlInjective` | src/main.rs:103-108 | two repositories have the same listing address iff they are the same repository |
| `ApiUrl.DefaultApiUrl` | src/main.rs:184 | the address `main` requests is `https://api.github.com/repos/zarkone/literally.el/actions/runs` |
| `Request.NewAccessForbiddenError` | src/main.rs:73-79 | the 403 error built from a reply text displays exactly that text |
| `Request.Req` | src/main.rs:128-133 | the result is `AccessForbidden` iff the status is 403, and then it carries the reply text; otherwise the result succeeds iff the JSON decoder does, with the decoder's value or its error unchanged |
| `Request.ReqZip` | src/main.rs:155-163 | the same classification for the archive request, with the archive opener in place of the JSON decoder |
| `Request.OnlyForbiddenIsSpecial` | src/main.rs:128-133 | two replies with the same body and statuses other than 403 give the same result, in `req` and in `req_zip` |
| `Listing.DecodeRun` | src/main.rs:62-66 | a run decodes iff its conclusion token is accepted, keeping its logs address and taking the conclusion the token names; otherwise it fails with the error `custom` builds from the token |
| `Listing.DecodeRunList` | src/main.rs:100 | the runs decode iff every token is accepted, and then every run is kept in place with its logs address and its token's conclusion; otherwise the error is the one built from the first rejected token |
| `Listing.DecodeRuns` | src/main.rs:97-101 | an error of the JSON library passes through; a listing read by it decodes iff all its tokens are accepted, with `total_count` copied and the runs decoded in order |
| `MainFlow.SelectRun` | src/main.rs:196 | the selected run belongs to the listing |
| `MainFlow.SelectionIsPositional` | src/main.rs:196 | the selected run is the one at index 0, and two listings with the same first run select the same run whatever their other runs, conclusions and counts |
| `MainFlow.FetchLogs` | src/main.rs:196-203 | an empty listing panics before any request; otherwise the one request is the first run's logs address, and `main` ends with the archive iff that reply is not a 403 and opens as one, and with `"Error"` otherwise |
| `MainFlow.FetchLogsDependsOnFirstLogsUrl` | src/main.rs:196-203 | of a decoded listing, what `main` requests next and how it ends depend on the first run's logs address alone, not on its conclusion, the later runs or `total_count` |
| `MainFlow.RunMain` | src/main.rs:184-203 | `main` requests the listing address first and at most one more address, and every failed ending carries `"Error"` |
| `MainFlow.ListingUndecodable` | src/main.rs:186-192 | a listing request that fails for any reason, 403 or decoding, ends `main` with `"Error"` after that one request |
| `MainFlow.ListingForbidden` | src/main.rs:186-192 | a 403 on the listing ends `main` with `"Error"` after that one request |
| `MainFlow.ListingWithRejectedToken` | src/main.rs:186-192 | a listing that is read but holds a rejected conclusion token in any run ends `main` with `"Error"` after that one request, before any run is selected |
| `MainFlow.PanicsIffNoRuns` | src/main.rs:196 | `main` panics exactly when the listing decodes to an empty list of runs |
| `MainFlow.FetchesFirstRunLogs` | src/main.rs:196-203 | with a non-empty decoded listing, the second request is the first run's logs address, and `main` ends with the archive iff that reply is not a 403 and opens as an archive, in which case it ends with exactly that archive |

## Left out

- The HTTP transport of `req` and `req_zip` is a parameter. The model leaves out the `reqwest` client, the headers, the base64 credential and the async runtime. Failures of sending and of reading the body (`send().await?`, `text().await?`, `bytes().await?`) are left out too; they are network I/O.
- Redirects are followed inside the HTTP client, by `reqwest`'s default policy, before the 403 test sees a reply. That policy is not part of this model: `fetch` yields the final reply.
- The JSON library's reading of the listing structure is the parameter `json`. A non-string conclusion (such as `null` for a run still in progress) or a `total_count` outside 32 bits is rejected inside it.
- The JSON library reads the structure and calls the conclusion parser as it goes. The model reads the structure first and parses the tokens afterwards. When a listing has both a structural fault and a rejected token, the two orders may report different errors; `main` ends with `"Error"` after one request either way.
- The displayed text of the deserializer's error (the JSON library adds a line and column) is not modelled; `custom` is a parameter.
- Opening the zip container is the parameter `openZip`. The loop that prints the archive's file names (src/main.rs:205-207) only prints and is left out.
- All `println!` and `eprintln!` output is left out. The model keeps the `"Error"` result of `main` but not the printed error text.
- `Config::new` (src/lib.rs:8-13) reads the `GITHUB_TOKEN` environment variable. It is configuration I/O, and the token is only used in headers, which are left out. Its failure exit of `main` (src/main.rs:182) is therefore not modelled.
- The commented-out `get_last_run_logs` (src/main.rs:170-178) is dead code and is not modelled.
- Jobs, steps, a search for a failed run, job or step, log-path derivation and archive entry matching do not exist in `src/main.rs`, so they are not modelled.
- MainFlow.SelectRun: its own contract only says that the run comes from the listing; that it is the run at index 0 is stated by `SelectionIsPositional`.
