# ACME-DNS provider for libdns, modelled in Dafny

The provider lets an ACME client answer DNS-01 challenges through an
ACME-DNS server. It implements the four libdns record operations. Only
AppendRecords (and SetRecords, which is the same operation) does real work:
for each requested TXT record it picks the ACME-DNS account to use and asks
the server to serve the record's value. DeleteRecords does nothing and
GetRecords always fails, because ACME-DNS offers neither operation.

The model has five modules:

- `Wrappers` (wrappers.dfy): `Option` for Go's nil values and `Result` for
  Go's `(value, error)` pairs.
- `Strings` (strings.dfy): the two Go `strings` functions the selector uses,
  `Trim` with the cutset `"."` and `TrimPrefix`. `Trim` is proved to cut off
  exactly the leading and trailing runs of dots and nothing else.
- `AcmeDns` (selector.dfy): the configuration data (`DomainConfig`,
  `Account`, `Provider`), the error kinds, the `_acme-challenge.` prefix and
  `SelectAccount`, a pure function modelling `Provider.selectAccount`.
- `Updater` (updater.dfy): `updateTxtValue` as an oracle. `AcmeDnsServer`
  is a class with a ghost `log` that records every update call: the account,
  the value, and whether the server accepted it. One object stands for every
  server the provider reaches; each call's `account.serverUrl` says which.
- `Records` (records.dfy): `Batch`, a recursive function that gives the
  meaning of the append loop for a given sequence of server answers. The
  `AppendRecords` method is the loop itself. Its loop invariant ties it to
  `Batch`, and its postcondition says that its result and the calls it adds
  to the server log are exactly those of `Batch` for the answers the server
  gave. `SetRecords`, `DeleteRecords` and `GetRecords` are modelled too.

`libdns.AbsoluteName` comes from another library, and its definition is not
part of this model. Every member that needs it takes it as a parameter
`absName: (string, string) -> string`, so no property depends on how it
works.

provider.go:70 calls `strings.Trim(domain, ".")` on the absolute name before
the table lookup. It removes every leading and every trailing dot: `..a.b..`
becomes `a.b`.

## Model

| member | source | states |
|---|---|---|
| `Strings.TrimLeft` | provider.go:70 | The result is a suffix of the input. Everything cut off is the cut character. The result does not start with it. |
| `Strings.TrimRight` | provider.go:70 | The result is a prefix of the input. Everything cut off is the cut character. The result does not end with it. |
| `Strings.Trim` | provider.go:70 | The result is a segment of the input that neither starts nor ends with a dot. Everything removed on either side is a dot. |
| `Strings.TrimIsTheTrimmedSegment` | provider.go:70 | The cut is unique: any segment with dot runs on both sides and no dot at its ends is exactly what `Trim` returns. |
| `Strings.TrimIdempotent` | provider.go:70 | Trimming an already trimmed name changes nothing. |
| `Strings.TrimPrefix` | provider.go:71 | If the input starts with the prefix, prefix + result == input. Otherwise the input is returned unchanged. |
| `AcmeDns.LookupKey` | provider.go:69-71 | The key comes from the trimmed absolute name. Either that name is `_acme-challenge.` followed by the key, or it is the key itself and does not start with `_acme-challenge.`. |
| `AcmeDns.SelectAccount` | provider.go:67-105 | If a table is configured: success exactly when the lookup key is in the table, the account's four fields are that entry's (FullDomain is dropped), and otherwise the error is ConfigNotFound(key). If there is no table: success exactly when all four flat fields are non-empty, and the account is those four fields. On failure, the reported field is empty and every field before it in the order Username, Password, Subdomain, ServerURL is set. |
| `AcmeDns.ConfigsTakePrecedence` | provider.go:68-83 | If a table is configured, two providers with the same table select the same result, whatever their flat fields hold. |
| `AcmeDns.MissingKeyNeverFallsBack` | provider.go:72-75 | A key that is missing from the table gives ConfigNotFound even when every flat field is set. |
| `AcmeDns.FlatAccountIgnoresNames` | provider.go:85-104 | Without a table, the result does not depend on the zone, the record name or the name resolver. |
| `AcmeDns.LookupKeyOfChallengeName` | provider.go:69-71 | If `_acme-challenge` in the zone `example.com.` resolves to `_acme-challenge.example.com.`, the lookup key is `example.com`. |
| `AcmeDns.LookupKeyStripsPrefixOnce` | provider.go:71 | Only one `_acme-challenge.` is removed: a doubled prefix leaves one in the key. |
| `Updater.AcmeDnsServer.UpdateTxtValue` | provider.go:107-130 | Each call appends one entry to the log: the account, the value, and the arbitrary success answer it returns. |
| `Records.Normalize` | provider.go:162 | The reported record has type TXT, the input's name and data, and a zero TTL. |
| `Records.Batch` | provider.go:147-166 | The reported records are, in input order, the normalised forms (type TXT, same name and data) of a prefix of the input. There is no error exactly when that prefix is the whole input. The number of update calls is the number applied, plus at most one. |
| `Records.BatchCalls` | provider.go:154-160 | Update call k is made for record k. That record is TXT and has an account. The call uses that account and the record's data. It succeeds exactly when the server's k-th answer is yes, and that happens exactly when record k is among those applied. |
| `Records.BatchSucceedsIff` | provider.go:149-165 | Every applied record passed the type check, had an account and was accepted. A batch succeeds exactly when every input record does. |
| `Records.BatchFailurePoint` | provider.go:151-161 | A failed batch stops at record k, where k is the number applied. The error names the first check that record fails. For a non-TXT record or a failed selection, no update is made for it. Only a rejected update for record k produces one extra call. |
| `Records.BatchIgnoresLaterRecords` | provider.go:151-161 | After a failure, later records are never looked at: appending more records to a failing batch changes neither its result nor its calls. |
| `Records.BatchAppend` | provider.go:149-164 | A batch that completes, followed by more records, gives its own result joined with the result of those records. |
| `Records.SecondOfThreeFails` | provider.go:158-161 | Take three TXT records with one flat account, where the second update is rejected. Only the first record is reported, the error is UpdateFailed, and exactly two update calls are made: the third record is never sent. |
| `Records.BatchOfOne` | provider.go:150-162 | For one record, the checks run in order: the type, then account selection, then the update. |
| `Records.AppendOne` | provider.go:150-162 | One turn of the loop: at most one update call is added to the log, and the error and the calls are those of `Batch` on that one record. |
| `Records.AppendRecords` | provider.go:147-166 | The log only grows. The returned records, the error and the update calls added to the log are exactly `Batch` for the answers the server gave. |
| `Records.SetRecords` | provider.go:192-194 | Same postcondition as AppendRecords, for the same inputs: the same result and the same update calls. |
| `Records.DeleteRecords` | provider.go:173-175 | Returns no records and no error. It has no access to the server, so it makes no update call. |
| `Records.GetRecords` | provider.go:200-202 | Always returns the GetUnsupported error and no records, without touching the server. |

## Left out

- The HTTP side of `updateTxtValue` (provider.go:107-130) is not modelled: the JSON body, the `/update` URL, the `X-Api-User` and `X-Api-Key` headers, the 30-second client timeout and the status-code check. Only its effect is kept: one call per update, which succeeds or fails. This also leaves out the unchecked error from building the request at provider.go:117: when `http.NewRequest` fails (for example on an unparsable `ServerURL`, which is never validated, also for table entries), the request is nil, `req.Header.Set` at provider.go:118 panics, and `AppendRecords` returns neither the partial list nor an error.
- Updater.AcmeDnsServer.UpdateTxtValue: the answer is arbitrary. The model does not tell a transport error from a non-200 status, and it does not model the server's storage of the last two TXT values.
- The internals of `libdns.AbsoluteName` are not part of this model. It is taken as a parameter.
- `context.Context` parameters are not modelled. The logic never reads them.
- JSON struct tags and how the configuration is loaded are not modelled. They only matter for serialisation.
- The interface guards (provider.go:205-210) are not modelled. They are compile-time checks.
- Error message texts are not modelled. Only the error kinds are: an empty field (which one), config not found with its key, a non-TXT record, a failed update, and get unsupported.
- The `acmeDNSRecord` wrapper is not modelled. A record is the libdns resource-record fields the provider uses: type, name, TTL and data. Normalisation keeps the name and data, sets the type to TXT and drops the TTL.
- Go's nil slice and its empty slice are both modelled as `[]`. Go returns nil from DeleteRecords and GetRecords, but an empty slice from a failed first append.
