# Bound service-account signing key asset, in Dafny

This project models the installer asset that holds the operator-supplied RSA key used by
kube-apiserver to sign bound service-account tokens (`BoundSASigningKey` in the installer's
`tls` asset package). The asset never creates a key. `Load` claims the asset only when a
parseable RSA private key sits at `tls/bound-service-account-signing-key.key`. It then
always derives the companion `tls/bound-service-account-signing-key.pub` from that key and
never reads a stored `.pub`. An absent key file means "not claimed, no error"; any other
fetch error, an unparseable key, or a public key that does not serialise is a hard error.
`Generate` is a no-op, `Dependencies` is empty and `Files` returns the stored list.

Files:

- `wrappers.dfy`: `Option` (a Go `error` that may be nil) and `Result`.
- `asset.dfy`: `File`, the three-way `FetchResult` (`NotExist | OtherErr | Found`), and a
  `FileFetcher` over a fixed snapshot of the install directory. The fetcher keeps a ghost
  log of the names it was asked for.
- `keycodec.dfy`: RSA key shapes and a `Codec`, a pair of total functions standing for
  `PemToPrivateKey` and `PublicKeyToPem`. Because they are functions, the derivation of the
  public key is deterministic by construction.
- `boundsasigningkey.dfy`: module `Tls`. It holds the two paths and the error kinds. It has
  the specification function `LoadFrom`, which gives Load's decision once the key file has
  been fetched. The class `BoundSASigningKey` has the `FileList` field and the asset's four
  operations. Two client methods replay the stale-`.pub` and absent-key scenarios.

`tlsDir` is defined elsewhere in the package; the model takes it to be `"tls"`.
`filepath.Join` is modelled as `dir + "/" + name`, which is what it gives for these clean
components. The lemma `Tls.CompanionPathsDistinct` holds for every directory, so the
distinct-paths result does not depend on that choice.

## Model

| member | source | states |
|---|---|---|
| `Tls.LoadFrom` | pkg/asset/tls/boundsasigningkey.go:43-63 | Load's decision as a function of the fetch result. It is unclaimed without error exactly when the key is absent. Another fetch error is returned unchanged. It is a malformed-key error exactly when the fetched bytes do not parse, and an encoding error exactly when they parse but the public part does not serialise. It is claimed exactly when all three steps succeed. Then the files are exactly two: the fetched key file unchanged, and a file at the `.pub` path whose data is the serialised public part of that key. |
| `Tls.LoadOutcome.Err` | pkg/asset/tls/boundsasigningkey.go:47-62 | The error half of Load's `(bool, error)` result is non-nil exactly on the failure exits, and it carries that exit's error. |
| `Tls.BoundSASigningKey.Load` | pkg/asset/tls/boundsasigningkey.go:43-63 | Fetches the `.key` path exactly once and no other path. It returns `(claimed, err)` as `LoadFrom` of that one fetch result decides. `FileList` becomes `LoadFrom`'s two files when claimed and is untouched otherwise. |
| `Tls.BoundSASigningKey.Generate` | pkg/asset/tls/boundsasigningkey.go:33-34 | Always returns nil. It modifies nothing, so no files are fabricated. |
| `Tls.BoundSASigningKey.Dependencies` | pkg/asset/tls/boundsasigningkey.go:27-31 | The asset depends on no other asset. |
| `Tls.BoundSASigningKey.Files` | pkg/asset/tls/boundsasigningkey.go:36-39 | Returns `FileList` exactly as stored. |
| `Tls.BoundSASigningKey.constructor` | pkg/asset/tls/boundsasigningkey.go:16-18 | A fresh asset (Go's zero value) holds no files. |
| `Asset.FileFetcher.FetchByName` | pkg/asset/tls/boundsasigningkey.go:44 | Answers from the directory snapshot and logs the requested name, so Load's fetches can be stated. |
| `Tls.CompanionPathsDistinct` | pkg/asset/tls/boundsasigningkey.go:44-61 | For any TLS directory, the `.key` path Load reads and the `.pub` path it writes are different. |
| `Tls.ClaimedPathsDistinct` | pkg/asset/tls/boundsasigningkey.go:61 | If the fetched key file carries the name it was fetched by, a claimed asset's two files have different paths. |
| `Tls.StalePublicKeyIsRecomputed` | pkg/asset/tls/boundsasigningkey.go:43-63 | A valid key plus a stale `.pub` on disk gives a claimed asset. Its first file is the key file, and its `.pub` is the one derived from the key, not the stale file. |
| `Tls.AbsentKeyYieldsNoFiles` | pkg/asset/tls/boundsasigningkey.go:29-63 | With no key at the expected path, Load returns `(false, nil)`. Generate then returns nil, and the asset holds no files. |

## Left out

- `Name` and the `asset.WritableAsset` interface assertion: constant plumbing with no behaviour.
- PEM armour, ASN.1 and RSA arithmetic inside `PemToPrivateKey` and `PublicKeyToPem`. The
  model gives the codec as two functions to the asset; it does not model what they compute.
- The file system behind `FileFetcher` and the `os.IsNotExist` classification of its error.
  The model supplies the fetch outcome already split three ways.
- `filepath.Join` normalisation: the two paths are fixed strings under `tls`.
- The `logrus.Debugf` call and the text of the `errors.Wrap` messages. The model keeps only
  which exit produced the error and the underlying cause.
- Pointer identity: Go stores the fetched `*asset.File` pointer itself as the first entry.
  The model stores an equal `File` value, so aliasing with the fetcher's object is not
  captured.
- The asset-graph orchestrator that calls these operations. `AbsentKeyYieldsNoFiles` runs
  only this asset's part of the load-then-generate order.
