# GoAppContext configuration core, in Dafny

GoAppContext is a Go package that bootstraps a service: it reads a JSON
configuration file, decrypts the database passwords stored in it, opens SQL
Server connection pools for named brands, dials a syslog sink and offers a few
helpers (HTTP port resolution, caller-tagged log lines). Almost all of it is
I/O. This project models the pure layer inside `GoAppContext.go` and proves
what it promises:

- **Brand lookup** (`GetDatabaseConfig`): a case-insensitive, first-match
  scan of the connection list by brand short code or brand name. The two
  `log.Fatal` exits (empty list; no usable entry) become `Failure` values of a
  `Result`.
- **Password pass** (the loop of `GetConfiguration`): starting from a parsed
  configuration, every entry's `DBPassword` is replaced by
  `Decrypt(key, TrimSpace(DBPassword))`. The first failure abandons the whole
  configuration. `DecryptAES` is a function-valued parameter (`Cipher`), so
  the properties hold for any cipher, on the runs where decryption returns
  rather than panics.
- **Environment fallbacks** (`GetConfigurationFileSpec`, `GetHTTPport`): the
  process environment is passed in as a `map<string, string>`, and a missing
  name reads as `""`, as `os.Getenv` does.
- **Formatting**: the connection string of `OpenOTRconnection` and the
  file/function tags of `logEntry`. The runtime's caller information is
  passed in as plain inputs.

Modules, one file each:

- `wrappers.dfy` (`Wrappers`) holds `Option` and `Result`.
- `text.dfy` (`Text`) models the Go string functions the package calls:
  `strings.ToLower` (ASCII letters), `strings.TrimSpace`, `strings.LastIndex`
  and `strconv.Itoa`. It also defines `IndexOf`, `Split` and `Join`, which the
  package does not call; they only read a connection string back into its
  settings.
- `configuration.dfy` (`Configuration`) holds the two records and their zero
  values.
- `lookup.dfy` (`Lookup`), `credentials.dfy` (`Credentials`),
  `environment.dfy` (`Environment`) and `formatting.dfy` (`Formatting`) hold
  the operations above.

Points of the code worth knowing:

- The lookup also fails when the *first* matching entry has an empty
  `ConnectionName`, even if a later entry matches and names a connection
  (GoAppContext.go:162-169).
- Hex-decoding errors are discarded inside `DecryptAES` (GoAppContext.go:234).
  In the model they are part of the abstract cipher.

## Model

| member | source | states |
|---|---|---|
| `Text.Lower` | GoAppContext.go:161-163 | lower-casing keeps the length and lower-cases each character independently; upper-case ASCII letters never survive it |
| `Text.LowerIdempotent` | GoAppContext.go:161 | lower-casing an already lower-cased string changes nothing |
| `Text.SameUpToCaseIffLowerEqual` | GoAppContext.go:161-163 | comparing two lower-cased strings for equality is exactly the same as comparing them case-insensitively, character by character, in both directions |
| `Text.TrimLeftSpec` | GoAppContext.go:111 | the leading trim removes a white-space prefix (Go's `unicode.IsSpace` set) and what remains is empty or starts with a non-space |
| `Text.TrimRightSpec` | GoAppContext.go:111 | the trailing trim removes a white-space suffix and what remains is empty or ends with a non-space |
| `Text.TrimSpaceIsTrimmedSlice` | GoAppContext.go:111 | `TrimSpace` returns a contiguous slice of its input: everything before it and after it is white space, and its first and last characters are not |
| `Text.TrimSpaceEmptyIffAllSpace` | GoAppContext.go:111 | the trimmed password is empty exactly when the stored one is all white space |
| `Text.LastIndex` | GoAppContext.go:219-221 | `strings.LastIndex` returns -1 exactly when the separator is absent; otherwise it returns a position holding the separator with no separator after it |
| `Text.SuffixAfterLast` | GoAppContext.go:219-221 | the slice after the last separator is the input's last element (`IsLastElement`): a separator-free suffix that is either the whole input or preceded by the separator, so the longest such suffix |
| `Text.NatToDecimal` | GoAppContext.go:219 | `strconv.Itoa` of a line number gives a non-empty string of decimal digits without a leading zero |
| `Text.ParseDecimalOfNatToDecimal` | GoAppContext.go:219 | the decimal line number reads back as the same number |
| `Text.ItoaReadsBack` | GoAppContext.go:219 | `strconv.Itoa` of a non-negative number is canonical decimal digits (no leading zero) that parse back to it; a negative number is a minus sign before the canonical digits of its magnitude |
| `Lookup.MatchesLoweredIffMatches` | GoAppContext.go:161-163 | the test on line 163 (lower-cased short code or brand name equal to the lower-cased query) holds exactly when the short code or the brand name equals the query up to letter case |
| `Lookup.FirstMatch` | GoAppContext.go:162-167 | the scan yields the index of an entry that matches with no match before it, or nothing when no entry matches |
| `Lookup.FirstMatchIsFirst` | GoAppContext.go:161-167 | the index the scan stops at is the first entry matching the query up to letter case; when the scan finds nothing, no entry matches |
| `Lookup.GetDatabaseConfig` | GoAppContext.go:154-172 | an empty list always fails with "no configurations" and a non-empty one never does; any other failure names the query; a success is the unmodified first matching element of the list, and it has a non-empty connection name |
| `Lookup.GetDatabaseConfigIsFirstMatch` | GoAppContext.go:159-171 | the result is decided by the first match in list order: that entry is returned when it has a connection name, and the lookup fails otherwise, whatever later entries hold |
| `Lookup.GetDatabaseConfigNoMatch` | GoAppContext.go:156-170 | when no entry matches, the lookup fails: with "no configurations" on an empty list, and as an unknown brand naming the query otherwise |
| `Lookup.GetDatabaseConfigIgnoresCase` | GoAppContext.go:161-163 | queries that differ only in letter case both succeed or both fail, and succeed with the same entry |
| `Lookup.FindDatabaseConfig` | GoAppContext.go:154-172 | the loop-and-break form of the scan computes the same outcome as the lookup function |
| `Credentials.DecryptAll` | GoAppContext.go:110-118 | succeeds exactly when every entry's password decrypts; then the list has the same length and order, each password is the decryption of the trimmed stored one, and every other field is unchanged; otherwise the error is the one of the first entry that fails |
| `Credentials.DecryptConfiguration` | GoAppContext.go:110-120 | on success only the connection list of the configuration changes, and it changes as `DecryptAll` states; the first failing entry's error is the result otherwise |
| `Credentials.RewritePasswords` | GoAppContext.go:110-120 | the in-place loop returns the rewritten configuration with no error, or the zero configuration with the first entry's error, never a partly rewritten configuration |
| `Credentials.LookupAfterDecryption` | GoAppContext.go:110-118 | resolving a brand after decryption finds the same entry as before, carrying its decrypted password, and fails exactly when the lookup on the stored configuration fails |
| `Environment.ConfigurationFileSpec` | GoAppContext.go:144-150 | the file path is never empty; it is the `<appname>_CONFIGFILE` value when that is non-empty and `config.json` otherwise |
| `Environment.ConfigurationFileSpecReadsOneVariable` | GoAppContext.go:145 | environments that agree on `<appname>_CONFIGFILE` give the same path |
| `Environment.ConfigurationFileSpecDefault` | GoAppContext.go:145-149 | the result is `config.json` exactly when the variable is unset, empty or itself `config.json` |
| `Environment.PortSourceOf` | GoAppContext.go:191-200 | the default is used exactly when both port variables are empty; `ASPNETCORE_PORT` is used exactly when it is non-empty |
| `Environment.GetHttpPort` | GoAppContext.go:191-200 | the port is the value of the source chosen by that precedence: `ASPNETCORE_PORT`, then `HTTP_PLATFORM_PORT`, then the caller's default |
| `Environment.GetHttpPortNonEmpty` | GoAppContext.go:195-197 | a non-empty default guarantees a non-empty port |
| `Environment.GetHttpPortReadsTwoVariables` | GoAppContext.go:192-194 | environments that agree on the two port variables give the same port |
| `Environment.GetHttpPortExamples` | GoAppContext.go:191-200 | with no variables set, the default `8080` is returned; with only `HTTP_PLATFORM_PORT=9090` set, `9090` is returned; `ASPNETCORE_PORT` wins when both are set |
| `Formatting.DsnSplitsIntoSettings` | GoAppContext.go:127 | when no value contains a semicolon, the connection string splits back into exactly its six settings, in order: server, database, user id, password, connection timeout 300, and app name |
| `Formatting.ConnectionString` | GoAppContext.go:126-127 | the connection string exists exactly when the brand lookup succeeds; it is then built from the first list entry matching the brand, which has a connection name; a failed lookup passes its error through |
| `Formatting.LogEntryFraming` | GoAppContext.go:213-222 | a log line is ` file: `, a base name, `:`, a line tag, `, function: `, a function tag, `, msg: ` and the message unchanged. The base name is the path's last `/`-separated element and the function tag is the name's last `.`-separated component. The line tag is canonical decimal digits (no leading zero) that parse back to a non-negative line, or `-` followed by the canonical digits of a negative line's magnitude |

## Left out

- Reading the file and `json.Unmarshal` (GoAppContext.go:97-108) are I/O and library decoding. The model starts from a parsed `ApplicationConfiguration`.
- `DecryptAES` (GoAppContext.go:233-246) uses hex decoding and AES, a foreign crypto library. It is a parameter of type `Cipher`, so its single-block behaviour and its swallowed hex errors are not modelled.
- `Credentials.DecryptAll`, `Credentials.DecryptConfiguration` and `Credentials.RewritePasswords` describe only the runs in which every decryption returns. With a key of valid AES length, `c.Decrypt` at GoAppContext.go:242 panics when the hex-decoded text is under 16 bytes. That covers an empty or all-white-space `DBPassword`, hex shorter than 32 digits, and malformed hex whose valid prefix decodes to under 16 bytes; in those cases `GetConfiguration` crashes the process instead of returning `(ApplicationConfiguration{}, err)`, which a total `Cipher` cannot express. An invalid key length makes `aes.NewCipher` return `aes.KeySizeError` (GoAppContext.go:236-238) before any panic, and that error path is within the model.
- The `log.Println` calls on the error paths of `GetConfiguration` (GoAppContext.go:99, 106, 113) are logging side effects and are not modelled.
- `syslog.Dial`, `sql.Open`, `db.Ping` and `openDB` (GoAppContext.go:63-66, 128-139, 178-187) are network and driver calls. Only the connection string is modelled.
- `InitApplicationHandlerContext` (GoAppContext.go:55-91) only composes side effects. The errors it drops at lines 68-78 belong to that composition.
- `logEntry` gets the caller from `runtime.Caller` and `runtime.FuncForPC`, which is runtime reflection, and can panic. The file path, line and function name are inputs instead. `logInfo` and `LogXForwardFor` (GoAppContext.go:204-209, 227-229) only log.
- `Lookup.GetDatabaseConfig`: Go's `log.Fatal` exits the process. Here it is a `Failure`, so `Formatting.ConnectionString` passes the error on instead of exiting.
- `Text.Lower` lower-cases ASCII letters only. Go's `strings.ToLower` also maps other Unicode letters, and that mapping is not modelled.
- Strings are sequences of code points. Go strings are UTF-8 bytes, and invalid UTF-8 is not modelled. The separators `/`, `.` and `;` are ASCII, so the slicing is the same either way.
- `Formatting.DsnSplitsIntoSettings` assumes no value contains a semicolon. The source does not quote values, so a password with a semicolon would produce extra settings.
- The commented-out `Add` and `Subtract` code and `GoAppContext_test.go` are left out. The test only exercises the I/O-bound initializer.
