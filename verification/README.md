# AFE container builder — Dafny model

An AFE file bundles application identity (name and version), a Lua script and a
symbolic permission string into one versioned record, `AfeFile`. Callers assemble
it with `AfeBuilder`: `new` starts from an empty script and the permissions
`rwxr-xr-x`; `set_permissions` replaces the permission string; `add_lua_function`
appends a synthesised `function NAME(A, B)\nBODY\nend\n` definition;
`add_lua_code` appends raw code and a newline; `build` snapshots the builder
into an `AfeFile` stamped with version `1` and a caller-supplied `using` tag.

The model is functional. Each builder method is a function from the old builder
value to the new one (`afe.dfy`, module `Afe`), so the Rust `&mut Self` chaining
becomes composition: a list of `Mutation`s folded by `Chaining.ApplyAll`
(`chaining.dfy`). The slice `join` (`[&str]::join`, called on a `Vec` through deref) is `Strings.Join` (`strings.dfy`). The grammar noted
on the `permissions` field is `Permissions.WellFormed` (`permissions.dfy`). It is
a predicate only: the code never checks it, so no operation is guarded by it.

## Model

| member | source | states |
|---|---|---|
| Afe.New | src/lib.rs:25-32 | a fresh builder carries the given name and version, an empty script, and exactly `rwxr-xr-x`, which obeys the permission grammar |
| Afe.SetPermissions | src/lib.rs:34-37 | the permission string becomes exactly the argument, with no validation; name, version and script are unchanged |
| Afe.AddLuaFunction | src/lib.rs:39-44 | the old script is a prefix of the new one and the appended text is `function NAME(JOINED)\nBODY\nend\n`; length grows by the parts plus 17 characters of syntax; other fields unchanged |
| Afe.AddLuaCode | src/lib.rs:46-50 | the old script is a prefix of the new one; `code` follows it; the script ends in a newline and grows by exactly the code length plus 1; other fields unchanged |
| Afe.Build | src/lib.rs:52-61 | the container has version 1, the given `using` tag, and the builder's name, version, script and permissions |
| Afe.BuildInjective | src/lib.rs:52-61 | two snapshots are equal if and only if their builders and tags are equal, and the builder can be read back from its snapshot, so every field is copied |
| Afe.AddLuaFunctionIsCode | src/lib.rs:39-50 | appending a function definition is the same as appending its text without the final newline as raw code |
| Afe.FunctionHeaderListsArgs | src/lib.rs:40-41 | each parameter name appears unchanged in the definition at the name's length plus ten (`function NAME(`) plus its join offset, so the names keep their original order |
| Afe.FunctionHeaderSeparatesArgs | src/lib.rs:40-41 | in the definition, `, ` sits between each parameter name and the next |
| Afe.AddLuaFunctionExample | src/lib.rs:39-44 | `f` with parameters `a`, `b` and body `return a+b` on a fresh builder gives the script `function f(a, b)\nreturn a+b\nend\n` |
| Afe.SetPermissionsCommutes | src/lib.rs:34-50 | setting permissions and appending script text commute |
| Afe.SetPermissionsLastWins | src/lib.rs:34-37 | of two permission settings only the later survives |
| Afe.SetPermissionsDoesNotValidate | src/lib.rs:34-37 | an ill-formed string such as `RWXR-XR-X` is stored and carried into the built container |
| Strings.Join | src/lib.rs:40 | the joined string is empty for no parts and starts with the first part otherwise |
| Strings.JoinLength | src/lib.rs:40 | the joined length is the parts' total length plus one separator per gap |
| Strings.JoinEdgeCases | src/lib.rs:40 | no parts give the empty string, one part gives that part, two parts give first, separator, second |
| Strings.JoinTwoNames | src/lib.rs:40 | `["a", "b"]` joined with `, ` is `a, b` |
| Strings.JoinSnoc | src/lib.rs:40 | appending a part to a non-empty list appends one separator and that part |
| Strings.JoinPlacesPart | src/lib.rs:40 | every part appears unchanged at its offset, so parts keep their original order |
| Strings.JoinSeparates | src/lib.rs:40 | exactly one separator sits between each part and the next |
| Strings.JoinLoop | src/lib.rs:40 | a single left-to-right pass that appends separator and part agrees with the recursive definition |
| Permissions.WellFormedIffTriplets | src/lib.rs:13 | the positional rule (`-` or the letter chosen by position mod 3) holds exactly when the string is three `r|-`, `w|-`, `x|-` triplets |
| Permissions.DefaultPermissionsWellFormed | src/lib.rs:30 | the default `rwxr-xr-x` has nine characters and obeys the grammar |
| Permissions.GrammarExamples | src/lib.rs:13 | `rw-r--r--` and `---------` are well formed; `rwxrwxrw`, `rwxrwxrwz` and `RWXR-XR-X` are not |
| Chaining.ApplyEffect | src/lib.rs:34-50 | one call keeps the identity, appends exactly its own fragment, and changes permissions only if it sets them |
| Chaining.ApplyAllScript | src/lib.rs:39-50 | after any chain of calls the script is the old script followed by every call's fragment in call order |
| Chaining.ApplyAllMetadata | src/lib.rs:34-50 | any chain of calls keeps name and version, and leaves the last permission string set, or the original if none is set |
| Chaining.ScriptAppendOnly | src/lib.rs:42-48 | the script before any chain of calls is a prefix of the script after it |
| Chaining.ApplyAllConcat | src/lib.rs:34-50 | running two chains one after the other equals running their concatenation |
| Chaining.SnapshotIndependence | src/lib.rs:52-61 | a container built after any chain of calls has the same name and version as one built before it, and the earlier container's script is a prefix of the later one's |
| Chaining.EndToEndExample | src/lib.rs:25-61 | `new("App", "1.0")`, then `rwxr-xr-x`, then `x = 1`, built with `demo`, gives version 1, those fields and the script `x = 1\n` |

## Left out

- `save` (src/lib.rs:63-76): creating and writing the file is I/O. Its only logic is `build` followed by encoding.
- bincode encoding and decoding (src/lib.rs:1, 7, 70-71): the byte layout belongs to an external codec, so any round-trip claim would be an assumption, not a proof. Its `expect` panic on failure goes with it.
- The `mlua` state built in an `unsafe` block (src/lib.rs:6, 65-68): a foreign call into a Lua runtime whose result is never used.
- Serde and bincode derives (src/lib.rs:7): plumbing.
- The `&mut Self` return used for chaining: modelled as function composition instead.
- Strings are sequences of characters. Rust `String` holds UTF-8 bytes. The length statements count characters, which matches byte counts only for ASCII text. No source operation depends on lengths.
- `version` (a plain `u32` at src/lib.rs:9) is modelled as the bounded newtype `Afe.u32`. Only the constant `1` is ever stored, so wrap-around never arises.
- src/lib.rs has no permission-validation operation: `Permissions.WellFormed` is a predicate only, and no operation is guarded by it.
- src/lib.rs has no decode routine of its own and never inspects `version`. The decoder that the `Decode`/`Deserialize` derives at src/lib.rs:7 generate is left out along with the bincode codec.
- The grammar is the nine-character `rwxr-xr-x` format named in the comment at src/lib.rs:13; no other length is accepted.
