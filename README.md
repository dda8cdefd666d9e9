# OpenRouter client: configuration stages, headers and response checks

A Dafny model of the core of `src/client.rs` of an OpenRouter API client
library written in Rust. It covers:

- the type-state builder `OpenRouterClient<State>`. The client moves from
  `Unconfigured` to `NoAuth` through `with_base_url`, and from `NoAuth` to
  `Ready` through `with_api_key`. `with_timeout`, `with_http_referer` and
  `with_site_title` change one field and stay at `NoAuth`;
- `ClientConfig::build_headers`, the default header map;
- `handle_response`, which classifies an HTTP response as an error or a
  decoded value;
- `validate_tool_calls`, which accepts a chat completion only if every tool
  call has kind `"function"`;
- the order of the checks in `chat_completion`: URL join, send, status, body,
  decode, tool calls.

Modules:

- `Errors`: the library's error values (`ApiError`, `SchemaValidationError`,
  and `HttpError` for a reqwest error converted by `?`), `Result`, `Option`,
  and `Fallible`, the outcome of a call into a foreign crate.
- `Text`: `str::trim` over the Unicode White_Space characters, used by the
  blank-body check.
- `Config`: `ClientConfig`, the header map, the imperative `BuildHeaders` and
  the declarative `Headers` that specifies it.
- `ChatTypes`: the fields of the chat request and response that the client
  reads.
- `Response`: `HandleResponse` (a function) and `ValidateToolCalls` (a method
  with the source's nested loops and early return).
- `Client`: the class `OpenRouterClient`. Its stage is a ghost field, because
  the source's `PhantomData` marker exists only at compile time. Each
  `impl OpenRouterClient<S>` block becomes `requires stage == S`. `Valid()`
  holds for every client the builder produces: a `Ready` client built by
  `with_api_key` has an API key, header values that `build_headers`
  accepts, and the HTTP client built from its configuration. The struct's
  fields are public, so a caller can also assemble or alter a client by
  hand; the methods therefore demand only what they use, not `Valid()`.
  Transitions repackage the configuration into a fresh object, as the source
  builds a new struct. The `with_*` setters update the configuration in
  place.

URL parsing and joining (the `url` crate), sending (reqwest), reading the
body and JSON decoding (serde_json) are parameters: total functions that
return `Fallible` values. The timeout is a number of seconds.

Where the code and the library's documentation differ, the model follows the code:

- `with_base_url` does not check for a trailing slash, although its doc comment (src/client.rs:70) asks for one.
- `with_api_key` accepts an empty key.
- The setters exist only on `NoAuth`.
- The referer header is `Referer`, not `HTTP-Referer`.
- An invalid base URL is an `ApiError` with code 400, not a separate
  configuration error.

Header names are the lower-case forms that a HeaderMap normalises them to.

## Model

| member | source | states |
|---|---|---|
| `Text.Trim` | src/client.rs:201 | `body.trim()` is the infix of the body left after stripping white space from both ends: what is cut before and after it is white space; it is empty exactly when every character of the body is Unicode white space; a non-empty result neither starts nor ends with white space |
| `Config.BuildHeaders` | src/client.rs:21-37 | the map built by the conditional inserts equals `Headers(c)`, the per-name specification of the headers |
| `Config.HeadersExact` | src/client.rs:21-37 | Content-Type is always `application/json`; Authorization is present iff there is an API key, and is then `Bearer <key>`; Referer and X-Title are present iff set and hold their values; there are no other entries |
| `Config.HeadersIgnoreUrlAndTimeout` | src/client.rs:21-37 | the headers depend only on the key, referer and title, so changing the base URL or the timeout leaves them unchanged |
| `Response.HandleResponse` | src/client.rs:188-213 | a body-read failure is an HttpError; a non-2xx status gives ApiError(status, body); a 2xx blank body gives ApiError(status, "Empty response body"); Ok iff 2xx, non-blank and decodable, with the decoded value; every error after the read carries the status, and a decode error's message ends with the body |
| `Response.DecodeOnlyNonBlankSuccess` | src/client.rs:194-208 | for a failed read, a non-2xx status or a blank body, the result does not depend on the decoder: decoding is attempted only for 2xx non-blank bodies |
| `Response.FirstInvalidKind` | src/client.rs:221-233 | finds no kind exactly when every tool call of every choice has kind "function" (a choice without tool calls has none) |
| `Response.FirstInvalidKindIsFirst` | src/client.rs:221-229 | a kind it finds is that of the first offending call, scanning choices in order and then calls in order |
| `Response.ValidateToolCalls` | src/client.rs:217-234 | Ok iff every tool call of every choice has kind "function"; otherwise SchemaValidationError("Invalid tool call kind: <kind>. Expected 'function'") with the kind of the first offending call |
| `Response.FirstInvalidUnique` | src/client.rs:221-229 | the first offending (choice, call) position is unique, so the reported kind is determined |
| `Client.OpenRouterClient.constructor` | src/client.rs:54-67 | `new`: stage Unconfigured; no key, referer or title; base URL `https://openrouter.ai/api/v1/`; timeout 30 s; no HTTP client |
| `Client.OpenRouterClient.WithBaseUrl` | src/client.rs:71-81 | a parse failure gives ApiError(400, "Invalid base URL: ...") and no NoAuth client, with the client unchanged; otherwise a fresh NoAuth client whose config differs from the old one only in the base URL, with no HTTP client |
| `Client.OpenRouterClient.TransitionToNoAuth` | src/client.rs:83-89 | the same configuration under stage NoAuth, with no HTTP client |
| `Client.OpenRouterClient.WithApiKey` | src/client.rs:94-97 | stores exactly Some(key), with no check on the key, changes no other field, and yields a fresh Ready client that has a key and an HTTP client |
| `Client.OpenRouterClient.WithTimeout` | src/client.rs:100-103 | sets only the timeout; the stage stays NoAuth |
| `Client.OpenRouterClient.WithHttpReferer` | src/client.rs:106-109 | sets only the referer to Some(referer); the stage stays NoAuth |
| `Client.OpenRouterClient.WithSiteTitle` | src/client.rs:112-115 | sets only the site title to Some(title); the stage stays NoAuth |
| `Client.OpenRouterClient.TransitionToReady` | src/client.rs:117-128 | a fresh Ready client with the same configuration and an HTTP client built from its timeout and its headers |
| `Client.ReadyClientAuthenticates` | src/client.rs:117-128 | every Ready client satisfying `Valid()` (every one `with_api_key` produces) has an API key and an HTTP client whose default headers carry `Bearer <key>` and the JSON content type |
| `Client.OpenRouterClient.ChatCompletion` | src/client.rs:148-185 | a join failure gives ApiError(400); a send failure gives HttpError; a non-2xx status gives ApiError(status, body) before any decoding; then handle_response's error if any; then the first invalid tool-call kind; an Ok result never has a tool call whose kind is not "function" |

## Left out

- Network I/O, async suspension, and reqwest's request and client building are left out. `send`, `response.text()`, URL parsing and `Url::join` are function parameters.
- JSON encoding of the request and `serde_json::from_str` are left out: decoding is an opaque parameter `decode`.
- The panic in `transition_to_ready` when reqwest fails to build the client is not modelled; building is assumed to succeed.
- The `HeaderValue::from_str(...).expect/unwrap` panics in `build_headers` become the precondition `HeaderValuesValid` on `BuildHeaders`, on `WithApiKey` and on `TransitionToReady`.
- `chat()` is left out: it only hands the HTTP client and config to the chat API module, which is not part of this model.
- `completion_request` is left out: it only forwards to `api::request::RequestBuilder`, which is not part of this model.
- Client.OpenRouterClient.ChatCompletion: requires a `Ready` stage, an HTTP client and header values `build_headers` accepts. These are the source's two panics, the `.unwrap()` of `http_client` (src/client.rs:166) and the header-value `expect`/`unwrap` inside `build_headers` (src/client.rs:168). A client assembled by hand through the public fields without them would panic there; panics are not modelled.
- Client.OpenRouterClient.TransitionToReady: requires `config.apiKey.Some?`, which the Rust function does not demand. It is private, and its one caller, `with_api_key`, stores the key just before calling it.
- Ownership transfer is not modelled. A consumed `self` in the source stays allocated here after a transition, and `with_*` update the object in place instead of returning it.
- The error conversion from reqwest errors is declared in `src/error.rs`, which is not part of this model; such errors are `HttpError` here.
- Response.HandleResponse: states that a decode failure's message ends with the body, not the decoder's wording before it.
- `Duration` is modelled as whole seconds; sub-second timeouts are not represented.
- The other fields of the chat types (usage, provider data, and so on) are left out; the model keeps the fields the client reads.
