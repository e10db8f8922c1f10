# Session cookie policy and CI install paths, in Dafny

This project models two small pure parts of the Pavex web framework.

**The session cookie configuration** (`SessionConfig`, `Cookie`). The
configuration record `SessionCookieConfig` decides how the session ID travels
to the client. It sets the cookie's name and its `Domain`, `Path`, `Secure` and
`HttpOnly` attributes (sections 4.1.2.3 to 4.1.2.6 of RFC 6265). It also sets
`SameSite` (the RFC 6265bis draft) and the `SessionCookieKind`, which is
`Persistent` or `Session`. Only a persistent cookie carries the `Max-Age`
attribute of section 4.1.2.2. Every field has a default, and the defaults form a
restrictive baseline: name `id`, no `Domain`, `Path=/`, `Secure`, `HttpOnly`,
`SameSite=Lax`, and a persistent cookie. The defaults are reached in two ways,
and both use the same default helpers:

- `DefaultConfig` is the `Default` implementation.
- `FromPartial` is what the derived deserializer does with a configuration
  document.

A document is modelled as one tri-state entry per field: `Absent`, `Null` or
`Value(v)`. A missing field takes its default. An explicit `null` sets an
optional field to `None`. For a non-optional field (`name`, `secure`,
`http_only`, `kind`) an explicit `null` is a decoding error. The kind is read
from its snake_case name, and any other text is a decoding error. `ToPartial`
is the serializer: every field is written, and an unset optional field is
written as `null`. `same_site` is `Option<SameSite>`, so an explicit `null`
turns the attribute off. Keys that name no field are ignored by the decoder, so the
model leaves them out. `SameSite` is a type of the framework's cookie library;
here it is a three-constructor stand-in, `Cookie.SameSite`.

**The CI install paths** (`CiPaths`, `Strings`). The workflow generator maps a
runner target to the install path of each command-line tool. `PavexPath` does
this for `pavex` and `PavexcPath` for `pavexc`. Both are total three-way
splits: `linux`, `windows`, and everything else (the macOS runner). `Strings`
gives `Replace`, a reference definition of Rust's `str::replace` for a
non-empty pattern. It is used to state that the two tools sit side by side.

The two parts do not share data. `Wrappers` holds the `Option` and `Result`
types.

## Model

| member | source | states |
|---|---|---|
| `SessionConfig.DefaultConfig` | libs/pavex_session/src/config/cookie.rs:50-83 | The `Default` configuration has name exactly `"id"`, no domain, path `Some("/")`, `secure` and `http_only` both true, `same_site` `Some(Lax)` and kind `Persistent`. |
| `SessionConfig.FromPartial` | libs/pavex_session/src/config/cookie.rs:3-47 | Decoding succeeds if and only if no non-optional field is `null` and a given kind names a variant. On success, each given field is kept as given, each missing field takes its default, and a `null` optional field is `None`. On failure, the error names a field that really is a `null` non-optional field, or a kind text that really names no variant. |
| `SessionConfig.ToPartial` | libs/pavex_session/src/config/cookie.rs:3-47 | Serializing writes every field: no entry is absent. An optional field is written as `null` exactly when it is `None`, and no other field is ever `null`. Decoding the serialized document gives back the same configuration (round trip). |
| `SessionConfig.KindName` | libs/pavex_session/src/config/cookie.rs:86-107 | A kind serializes as its variant name in snake_case: `"persistent"` for `Persistent` and `"session"` for `Session`, each a non-empty lower-case word. |
| `SessionConfig.DefaultKind` | libs/pavex_session/src/config/cookie.rs:96-97 | `SessionCookieKind::default()` is `Persistent`, written `"persistent"`. |
| `SessionConfig.ParseKind` | libs/pavex_session/src/config/cookie.rs:86-107 | A text decodes to a kind exactly when it is the snake_case name of some kind, and that kind's name is the text. |
| `SessionConfig.KindRoundTrip` | libs/pavex_session/src/config/cookie.rs:86-97 | Serializing a kind and then deserializing it returns the same kind. `"persistent"` and `"session"` are distinct names. |
| `SessionConfig.EmptyDocumentIsDefault` | libs/pavex_session/src/config/cookie.rs:11-62 | A document with every field missing decodes to exactly `DefaultConfig()`, so the deserializer defaults and the `Default` implementation agree. |
| `SessionConfig.AbsentMeansDefault` | libs/pavex_session/src/config/cookie.rs:11-47 | For every document, leaving a field out decodes the same as writing its default explicitly: `"id"`, `null` domain, `"/"`, `true`, `true`, `Lax`, `"persistent"`. |
| `SessionConfig.DefaultsWrittenOut` | libs/pavex_session/src/config/cookie.rs:11-62 | The serialized `Default` configuration is the empty document with every default written out. |
| `SessionConfig.SetFieldChangesOnlyThatField` | libs/pavex_session/src/config/cookie.rs:11-47 | In a decodable document, giving one field a value (or `null`, for an optional field) changes only that field of the decoded configuration. |
| `CiPaths.PavexPath` | ci_utils/src/main.rs:3-9 | For every target, the `pavex` path ends in `.exe` if and only if the target is `"windows"`. It uses `/` separators if and only if the target is not `"windows"`. |
| `CiPaths.PavexcPath` | ci_utils/src/main.rs:11-17 | For every target, the `pavexc` path ends in `.exe` if and only if the target is `"windows"`. It uses `/` separators if and only if the target is not `"windows"`. |
| `CiPaths.PathsPerTarget` | ci_utils/src/main.rs:3-17 | `linux` maps to `/home/runner/.cargo/bin/…` and `windows` to `C:\Users\runneradmin\.cargo\bin\….exe`. Every other target maps to `/Users/runner/.cargo/bin/…`, for both tools. |
| `CiPaths.PavexcBesidePavex` | ci_utils/src/main.rs:3-17 | For every target, the `pavexc` path is the `pavex` path with `pavex` replaced by `pavexc`, using `str::replace` semantics. |

## Left out

- The configuration-file formats (JSON, YAML, TOML) and the serde machinery. A document is given already split into per-field entries.
- Wrong value types in a document, such as `secure: "yes"`. They are rejected when the value is read and cannot be expressed as tri-state entries.
- Duplicate keys. The derived decoder rejects a key that appears twice, but a record with one entry per field cannot express a repeated key.
- Formats without `null`, such as TOML. The serializer leaves a `None` field out there, so `path: None` would read back as `Some("/")`. The model writes `None` as `null`, as formats with `null` do.
- The document keys. `FieldKey` gives each field's snake_case key, but the model's documents are indexed by field, so no key reaches the decoder.
- `SessionConfig.FromPartial`: when several fields are invalid, the deserializer reports the first one in document order. The entries carry no order. So the contract only promises that the reported error is a genuine one, and the body reports the first in declaration order.
- The written form of `SameSite`. It belongs to the framework's cookie library, which is not part of this model. A `same_site` entry holds the decoded value.
- `#[non_exhaustive]` and the `Debug`/`Clone`/`PartialEq` derives. They have no behaviour to model.
- `main` in ci_utils/src/main.rs. It reads template files, lists directories and renders through the minijinja engine, so it is I/O plus a foreign library.
- The dependency-injection kit examples under doc_examples. They only call into the framework's `Blueprint`/`ApiKit` builders, which are not part of this model.
- The session store, session-ID generation, rotation, the per-request lifecycle and `Set-Cookie` rendering. None of them is in the modelled source.
- `Strings.Replace` requires a non-empty pattern. Rust's `str::replace` also accepts an empty one, but the property only ever replaces `pavex`.
