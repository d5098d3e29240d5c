# vault_hiera_hash, modelled in Dafny

`vault_hiera_hash(options, context)` is a Puppet hiera back-end function that
fetches one key/value path from a HashiCorp Vault server. It first checks its
options in a fixed order. It then builds a TLS client, gets a token, fetches the
path and parses the answer for KV engine v1 or v2. Last, it reports the
result to the hiera lookup context: `not_found` for empty or non-hash data,
then `cache_all` with the data, which it also returns.

The model has three modules:

- `Wrappers` (wrappers.dfy): `Option` and `Result`.
- `RubyCore` (ruby_core.dfy): the Ruby behaviour the function depends on.
  This covers Ruby values and hashes (string and symbol keys are different
  keys), `Hash#[]` (nil when the key is absent), `#empty?` (undefined on nil,
  integers and booleans), `String#strip` and `String#delete` with a one-character
  argument.
- `VaultHieraHash` (vault_hiera_hash.dfy): the function itself.
  - The guard chain is `Validate`, with each check named by the `Check` datatype
    and listed in `CheckOrder`.
  - The selection rules for timeout, token source and KV version are part of
    the `Plan` that `Validate` accepts.
  - The steps after validation are the method `Run`, specified by the predicate
    `RunContract`. These steps are transport, token, fetch, parse and
    finalisation. `Run` handles the transport and the token, `FetchAndParse`
    the fetch and the parse, and `Report` the finalisation.
    `RunContractDetermines` shows that `RunContract` allows exactly one result
    and one call sequence for each environment and each behaviour of the helpers.
  - The whole function is the method `Lookup`. It returns its result and the
    helper calls, the token-file read and the context calls it made, in the
    order it made them. The `File.file?` and `URI()` calls of the checks are
    not recorded.

The filesystem and Ruby's URI parser are an `Env` value:

- `files` is the set of values `File.file?` accepts.
- `contents` holds what `File.read` returns. A path not in it makes the read raise.
  The contents are either text or bytes that are invalid in the default external
  encoding. `String#strip` raises ArgumentError on invalid bytes, and the model
  reports that as `TokenInvalidBytes`.
- `uris` holds what `URI()` returns: scheme, userinfo, hostname, port, path,
  query and fragment. A value not in it makes `URI()` raise. The function itself
  looks only at the hostname and the path, but the transport receives the whole
  URI, so two URIs that differ only in scheme or port reach it as different
  arguments.

The helpers `http_create_secure`, `vault_get_token`, `vault_http_get` and
`vault_parse_data` live in lib/shared/vault_common.rb, which is not part of
this model. They are fields of the `Vault` datatype. Each field is an arbitrary
function that either returns a value or fails with an opaque error `E`, and
nothing is assumed about them. Whether the context's `not_found` returns or
unwinds is decided by Puppet, so it is the parameter `Context.notFoundThrows`.

Points where the code may surprise a reader:

- `uri.hostname` is tested only for nil. A URI with an empty hostname passes
  the check.
- The mount name is `auth_path` with every `/` deleted, not only the leading
  and trailing ones (`Delete`, with `DeleteIsSubsequence` and `DeleteKeepsOthers`).
- The presence of a timeout is tested with the string key `'timeout'`, but the
  value is read from the symbol key `:timeout`. An options hash holding only
  the string key therefore passes nil to the transport (`TimeoutKeyMismatch`).
- The first error message mentions `'uris'`, but only the `'uri'` key is accepted.

## Model

| member | source | states |
|---|---|---|
| `RubyCore.IsEmpty` | lib/puppet/functions/vault_hiera_hash.rb:63 | `data.empty?` is defined exactly for strings, symbols, arrays and hashes; a hash is empty exactly when it has no entries |
| `RubyCore.LStripSpec` | lib/puppet/functions/vault_hiera_hash.rb:52 | the contract of `LStrip`: `lstrip` leaves a suffix of the input, everything it cuts off is whitespace, and the result does not start with whitespace |
| `RubyCore.RStripSpec` | lib/puppet/functions/vault_hiera_hash.rb:52 | the contract of `RStrip`: `rstrip` leaves a prefix of the input, everything it cuts off is whitespace, and the result does not end with whitespace |
| `RubyCore.StripIsTrim` | lib/puppet/functions/vault_hiera_hash.rb:52 | the contract of `Strip`: the stripped token file contents are a slice of the file with only whitespace around it and no whitespace at either end |
| `RubyCore.TrimIsStrip` | lib/puppet/functions/vault_hiera_hash.rb:52 | any such trimmed slice equals `strip`'s result, so `strip` is determined by that description |
| `RubyCore.StripIdempotent` | lib/puppet/functions/vault_hiera_hash.rb:52 | stripping an already stripped token changes nothing |
| `RubyCore.Delete` | lib/puppet/functions/vault_hiera_hash.rb:54 | the mount name contains no `/` and is no longer than `auth_path` |
| `RubyCore.DeleteIsSubsequence` | lib/puppet/functions/vault_hiera_hash.rb:54 | the mount name keeps the characters of `auth_path` in their original order |
| `RubyCore.DeleteKeepsOthers` | lib/puppet/functions/vault_hiera_hash.rb:54 | every character other than `/` occurs in the mount name exactly as often as in `auth_path`, and `/` never does |
| `RubyCore.DeleteConcat` | lib/puppet/functions/vault_hiera_hash.rb:54 | deleting slashes from a concatenation deletes them from each part, so inner slashes go as well as outer ones |
| `RubyCore.DeleteAbsent` | lib/puppet/functions/vault_hiera_hash.rb:54 | an `auth_path` without slashes is used unchanged as the mount name |
| `RubyCore.DeleteIdempotent` | lib/puppet/functions/vault_hiera_hash.rb:54 | deleting slashes twice is the same as deleting them once |
| `VaultHieraHash.FirstFailure` | lib/puppet/functions/vault_hiera_hash.rb:21-40 | the reference reading of the guard chain: the failure it reports is one of the checks and fails; there is none exactly when every check passes |
| `VaultHieraHash.FirstFailureAt` | lib/puppet/functions/vault_hiera_hash.rb:21-40 | a failing check preceded only by passing checks is the one reported |
| `VaultHieraHash.Validate` | lib/puppet/functions/vault_hiera_hash.rb:38-40 | accepted options always yield a URI with a hostname |
| `VaultHieraHash.ValidateIsFirstFailure` | lib/puppet/functions/vault_hiera_hash.rb:21-40 | the guard chain rejects exactly when some check of uri, ca_trust, ca_trust file, token_file file, token source, URI parse, hostname fails, and names the first one in that order |
| `VaultHieraHash.AcceptedIffAllPass` | lib/puppet/functions/vault_hiera_hash.rb:21-40 | the options are accepted if and only if every check passes |
| `VaultHieraHash.NonStringArguments` | lib/puppet/functions/vault_hiera_hash.rb:29-38 | in an environment where only strings name files or parse as URIs, a non-string `ca_trust`, `token_file` or `uri` fails the check that hands it to `File.file?` or `URI()`, once the earlier checks pass |
| `VaultHieraHash.MissingUri` | lib/puppet/functions/vault_hiera_hash.rb:21-22 | without the `'uri'` key the outcome is the uri error, whatever the other options hold |
| `VaultHieraHash.TokenFileCheckedBeforeAuthPath` | lib/puppet/functions/vault_hiera_hash.rb:32-33 | a `'token_file'` that is not an existing file is the error even when `'auth_path'` is given |
| `VaultHieraHash.NoTokenSource` | lib/puppet/functions/vault_hiera_hash.rb:35-36 | with neither `'token_file'` nor `'auth_path'`, and the earlier checks passing, the outcome is the "requires either" error |
| `VaultHieraHash.AcceptedPlan` | lib/puppet/functions/vault_hiera_hash.rb:38-62 | an accepted plan uses the parsed URI and the ca_trust value, has timeout 5 without `'timeout'` and the `:timeout` value with it, takes the token file over `auth_path`, and selects v2 exactly for the string `'v2'` |
| `VaultHieraHash.TimeoutKeyMismatch` | lib/puppet/functions/vault_hiera_hash.rb:42-48 | for accepted options with a timeout given only under the string key, the plan's timeout, which is what the transport gets, is nil |
| `VaultHieraHash.SelectTimeout` | lib/puppet/functions/vault_hiera_hash.rb:42-46 | without `'timeout'` the timeout is 5. With it, the timeout is the value under `:timeout`, or nil when that symbol key is absent |
| `VaultHieraHash.SelectAuth` | lib/puppet/functions/vault_hiera_hash.rb:51-55 | the token file is used exactly when `'token_file'` is present, and its value is the file. Otherwise certificate login is used, with the value of `'auth_path'` |
| `VaultHieraHash.SelectVersion` | lib/puppet/functions/vault_hiera_hash.rb:58-62 | v2 is selected exactly when `'version'` is present and holds the string `'v2'` |
| `RubyCore.Get` | lib/puppet/functions/vault_hiera_hash.rb:43 | `Hash#[]` on a hash without a default gives the stored value for a present key and nil for an absent one |
| `VaultHieraHash.Run` | lib/puppet/functions/vault_hiera_hash.rb:48-65 | `RunContract`, which fixes both the calls and the result. The calls follow transport, token, fetch, parse, then at most one `not_found` and at most one `cache_all`, with no step skipped. The transport gets the plan's URI, ca_trust and timeout. If it raises, its error is the result and it is the only call. The token is the stripped file contents when the plan has a token file; an unreadable file or invalid bytes end the run after that read. Otherwise the token comes from `vault_get_token` on the new client with the slash-free `auth_path`; a non-String `auth_path` ends the run after the transport. The fetch uses the URI's path on the same client with that token. The parse gets the fetched envelope and the plan's version. A helper that raises makes the last call, and its error is the result. Data without `empty?` is a failure. A found result is what the parser returned, has `empty?`, and is the argument of the last call, `cache_all`. `not_found` comes before it exactly when the data is empty or not a hash. When `not_found` unwinds, that is the result and nothing follows it |
| `VaultHieraHash.FetchAndParse` | lib/puppet/functions/vault_hiera_hash.rb:57-62 | given the client the transport returned and a token obtained as lines 51-55 obtain it, the fetch, the parse and what follows meet `RunContract` |
| `VaultHieraHash.Report` | lib/puppet/functions/vault_hiera_hash.rb:63-65 | given data the parser returned for the fetched envelope, finalisation meets `RunContract`: data without `empty?` fails, `not_found` is called exactly for empty or non-hash data, and `cache_all` gets the data, which is returned unless `not_found` unwound |
| `VaultHieraHash.RunContractDetermines` | lib/puppet/functions/vault_hiera_hash.rb:48-65 | two runs that meet `RunContract` for the same plan, environment, helpers and context have the same result and the same calls, so every outcome is caused by the behaviour of the environment and the helpers |
| `VaultHieraHash.Lookup` | lib/puppet/functions/vault_hiera_hash.rb:20-66 | a failed check is reported as that check and makes no call at all. Accepted options give `Run`'s contract for the accepted plan. Whenever a second call is made, it is `vault_get_token` exactly when `'token_file'` is absent, with `auth_path` minus every `/`. Whenever the parse is reached, it parses as v2 exactly when `options['version'] == 'v2'` |

## Left out

- The helpers of lib/shared/vault_common.rb (`http_create_secure`, `vault_get_token`, `vault_http_get`, `vault_parse_data`): that file is not part of this model. They are arbitrary functions, so TLS, HTTP, the v1/v2 envelope shapes and the mapping from status codes to errors are not modelled.
- Real filesystem access and Ruby's `URI()` parser: they are the abstract `Env`. Which values count as files or parse as URIs is left to `Env`. The exceptions these two raise are not modelled separately. `File.file?` raises a TypeError on a non-string argument such as nil. `Kernel#URI` raises ArgumentError on a non-string argument and `URI::InvalidURIError` on a malformed string at line 38. None of these is a `LookupError`. When `files` and `uris` hold only strings, as in Ruby (`StringsOnly`), a non-string argument gives `Config(CaTrustIsFile)`, `Config(TokenFileIsFile)` or `Config(UriParses)` (`NonStringArguments`), and a malformed string gives `Config(UriParses)`.
- Puppet plumbing: the `dispatch` block and its parameter types (lines 13-16), `Puppet.debug` (line 24), the `LookupError` class and the texts of the error messages. An error is identified by the check that failed.
- `VaultHieraHash.Run`: for an `auth_path` that is not a String it reports `AuthPathNotString`. Ruby would instead call `Array#delete` or `Hash#delete`, or raise NoMethodError, depending on the value's class.
- `VaultHieraHash.FileData`: the token file's encoding is not modelled. Its contents are given either as decoded text or as invalid bytes, and which byte sequences are invalid is left to the environment.
- `RubyCore.Value` has no floats and no other Ruby classes, so options holding a float (such as `timeout: 2.5`) cannot be expressed. The timeout is never inspected, only passed to the transport, so a Float case would change nothing else.
- `RubyCore.IsSpace` uses the whitespace set of current Ruby for `strip`: NUL, tab, line feed, vertical tab, form feed, carriage return and space. Older Ruby versions did not strip a leading NUL.
- Concurrency, timeouts and time: each lookup is one sequential run of the method.
