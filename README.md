# License display records of the package frontend

This project models how pkgsite's frontend turns the license records it
reads from the data store into the records a package page displays.

- A full license record (`license.License`) becomes a `License` section.
  The section holds the record unchanged and an anchor, which is the
  record's file path, query-escaped.
- A metadata record (`license.Metadata`) lists the license types found in
  one file. It becomes one `LicenseMetadata` (type, anchor) entry per type.
  All entries from one record share that record's anchor.
- `fetchPackageLicensesDetails` asks the data source for a package
  version's license records. It returns the data source's error unchanged.
  Otherwise it returns the sections of the records, in the order received.

Files:

- `wrappers.dfy` (module `Wrappers`): `Option`, and `Result` for Go's `(value, error)` returns.
- `url_escape.dfy` (module `UrlEscape`): Go strings as byte sequences. Also
  query escaping as Go's `url.QueryEscape` does it, with its inverse
  `QueryUnescape`. The anchor relies on these.
- `license.dfy` (module `Frontend`): the records and the three operations.

The two transforms work by mutation in Go, so they are methods here.
`TransformLicenses` fills a fresh array by index. `TransformLicenseMetadata`
appends in nested loops. Each is proved equal to a recursive specification
function (`Licenses`, `Metadata`), and the lemmas state the properties of
those functions. `fetchPackageLicensesDetails` only branches, so it is a
function. It takes the data source's query as a function parameter, which
it calls with the package path, module path and version.

Where the description of the system and the code differ, the model follows
the code:
- A metadata record may list no types. It then contributes no entries.
- No generic "expand with anchor" operation is factored out of the two transforms.
- An empty result from `transformLicenseMetadata` is a nil slice in Go.
  From `transformLicenses` it is an empty slice. Both are `[]` here.

## Model

| member | source | states |
|---|---|---|
| `Frontend.Anchor` | internal/frontend/license.go:72-76 | The anchor of a file path is its query escape. It contains no raw space or `/`, only unreserved bytes, `%` and `+`. |
| `Frontend.AnchorInjective` | internal/frontend/license.go:74-76 | Two paths have the same anchor exactly when they are equal. |
| `UrlEscape.QueryEscape` | internal/frontend/license.go:75 | Every byte of the escaped output is unreserved, `%` or `+`. The output is between one and three times the input's length. |
| `UrlEscape.EscapeByte` | internal/frontend/license.go:75 | Each input byte becomes one to three query-safe bytes. |
| `UrlEscape.EscapeRoundTrip` | internal/frontend/license.go:75 | Unescaping the query escape of any byte string gives that string back. |
| `UrlEscape.QueryEscapeInjective` | internal/frontend/license.go:75 | Distinct strings have distinct query escapes. |
| `Frontend.Licenses` | internal/frontend/license.go:45-54 | There is one section per record, in input order. Section i holds record i unchanged, with the anchor of its file path. Empty input gives empty output. |
| `Frontend.TransformLicenses` | internal/frontend/license.go:45-54 | The index-filled array is fresh and its contents equal `Licenses` of the input. |
| `Frontend.LicenseAnchorsIdentifyFiles` | internal/frontend/license.go:47-51 | Two sections share an anchor exactly when their records have the same file path. |
| `Frontend.Tagged` | internal/frontend/license.go:61-67 | A record gives one entry per type, in type order, each with that record's anchor. |
| `Frontend.Metadata` | internal/frontend/license.go:58-70 | The number of entries is the total number of types over all records. |
| `Frontend.TransformLicenseMetadata` | internal/frontend/license.go:58-70 | The slice grown by the nested append loops equals `Metadata` of the input. |
| `Frontend.TaggedPrefixStep` | internal/frontend/license.go:62-67 | Appending the entry for the next type extends the entries of the types read so far. |
| `Frontend.MetadataPrefixStep` | internal/frontend/license.go:60-68 | Handling the next record appends exactly its entries to those of the records before it. |
| `Frontend.MetadataAppend` | internal/frontend/license.go:59-69 | The entries for `a + b` are the entries for `a` followed by those for `b`. |
| `Frontend.UntypedRecordAddsNothing` | internal/frontend/license.go:62-67 | A record with no types adds no entries, wherever it stands. |
| `Frontend.MetadataAt` | internal/frontend/license.go:60-67 | Type j of record i sits at position (number of types in records before i) + j, under record i's anchor. |
| `Frontend.MetadataOrigin` | internal/frontend/license.go:61-65 | Every entry's type is a type of some record, and its anchor is that record's anchor. |
| `Frontend.MetadataExample` | internal/frontend/license.go:58-70 | One file with one type, then one with two types, give three entries. The last two share the second file's anchor. |
| `Frontend.FetchPackageLicensesDetails` | internal/frontend/license.go:35-41 | The data source's error is returned unchanged, and only when the data source fails. On success there is one section per returned record, in order, holding the record and its path's anchor. |

## Left out

- `context.Context`: it is not modelled. The data store query is a pure function parameter, with no I/O, cancellation or deadline.
- Pointers: `*license.License` and `*license.Metadata` are immutable values here. Aliasing and pointer identity are not modelled. Go panics on a nil element; inputs here cannot contain nil.
- Record fields: a license record's fields other than its file path are one opaque `contents` value, passed through unchanged. The `license` package is not part of this model.
- `VersionedPackage`: flattened to path, module path and version. Go reads the version from `pkg.VersionInfo.Version`.
- Nil versus empty slices: both are `[]`.
- Escaping: `net/url` is not part of this model. `QueryEscape` and `QueryUnescape` follow that package's documented query-component rules. Go's version counts first and then fills an array; the model computes the same value directly.
- `UrlEscape.QueryUnescape`: an invalid escape gives `None`. Go returns an `EscapeError` naming the bad sequence.
- Strings: Go strings are byte sequences, and so are `GoString`s here. No UTF-8 decoding or Unicode handling is modelled.
