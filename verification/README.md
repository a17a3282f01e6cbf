# aedron-patchouli plugin core, modelled in Dafny

aedron-patchouli is a self-hosted media library server. This project models the server's
plugin subsystem and the small helpers around it. All files are verified together:

- **The plugin library** (`pluglib`), which both the host and the plugins link against:
  - the C-ABI types that cross the plugin boundary: borrowed and boxed slices, nul-terminated strings, dates, times, options and results (`PluglibFfi`);
  - the `Version` type with its compatibility rule, its order, its parser and its display form (`PluglibVersion`);
  - metadata field types and values, their SQL and JSON conversions, and the `new_metadata_field!` and `make_plugin!` macros (`PluglibMedia`).
- **The music plugin** (`MediaMusic`): its descriptor, the MIME types it derives from `ffprobe -formats`, and the metadata it extracts from `ffprobe` output.
- **The host side**:
  - loading a media plugin from a shared library, and checking its plugin-library version (`ServerMediaPlugin`);
  - the plugin kinds and plugin records, the rebuild decision, the plugin directories and which files are tried as plugins (`ServerPlugins`);
  - the `PluginStore` that loads every plugin and updates the database (`ServerPluginStore`);
  - a media plugin's table schema, its insert statement, and the incremental indexing pass that keeps a media table in step with the files on disk (`ServerMediaPlugin.MediaTable`).
- **The library indexer** (`ServerTasks`): a breadth-first directory walk that visits each directory once, a filter on file extensions, and the reconciliation of a library's rows with the files found.
- **The compile-time helpers** (`ServerProc`): the static configuration's version substitution, and the collection of migration files, ordered by their number.
- **The HTTP tracing helpers** (`ServerHttp`): latency formatting, client labels, and the middleware that copies the client address onto the response.
- **The shared records** (`CommonLibrary`, `CommonMedia`): library configurations and media records, and their database forms, which use `i64` casts and a `:`-joined path list.

The foreign world is made of parameters. A filesystem is a function from paths to listings. A shared library is a record of the symbols it exports. `ffprobe` is its output. MIME detection is a function from file names. The database is a map from keys to rows.

Supporting modules model the parts of the Rust standard library and of the `time`, rusqlite and serde_json crates that the core uses:
- `Wrappers`: options, results and outcomes that may panic;
- `StdInt`: fixed-width integers and `as` casts;
- `StdCmp`: orderings;
- `StdStr`: splitting, joining, decimal rendering and parsing;
- `StdPath`: path file names, stems and extensions;
- `TimeTypes`: dates and times;
- `SqlJson`: SQL and JSON values.

Where the source does its work in place, the model does too:
- the boxed slice and owned C string are classes over arrays;
- the plugin store, the media table, the directory walker and the library table are classes whose methods are proved against specification functions;
- the migration sort is an in-place insertion sort over an array.

## Model

| member | source | states |
|---|---|---|
| `PluglibFfi.FfiSlice.ToSlice` | server/plugins/lib/src/ffi.rs:59-63 | the slice read back has `len` elements and is a prefix of the memory the pointer designates |
| `PluglibFfi.SliceNew` | server/plugins/lib/src/ffi.rs:37-43 | a slice built from `s` is well formed, reads back exactly `s`, has its length, and is empty iff `s` is |
| `PluglibFfi.FfiBoxedSlice.constructor` | server/plugins/lib/src/ffi.rs:138-143 | the new buffer owns fresh memory holding the given elements in order |
| `PluglibFfi.FfiBoxedSlice.Default` | server/plugins/lib/src/ffi.rs:175-180 | the default boxed slice is a fresh, empty buffer |
| `PluglibFfi.FfiBoxedSlice.Len` | server/plugins/lib/src/ffi.rs:147-149 | `len` is the number of elements held |
| `PluglibFfi.FfiBoxedSlice.IsEmpty` | server/plugins/lib/src/ffi.rs:153-155 | `is_empty` holds iff no element is held |
| `PluglibFfi.FfiBoxedSlice.AsSlice` | server/plugins/lib/src/ffi.rs:159-165 | the borrowed slice is well formed and reads back the buffer's elements |
| `PluglibFfi.FfiBoxedSlice.ToSlice` | server/plugins/lib/src/ffi.rs:169-173 | `to_slice` yields exactly the elements held |
| `PluglibFfi.FfiBoxedSlice.Clone` | server/plugins/lib/src/ffi.rs:181-186 | a clone is a fresh buffer, not aliasing the original, with equal contents |
| `PluglibFfi.FfiBoxedSlice.Set` | server/plugins/lib/src/ffi.rs:201-208 | writing through `deref_mut` changes exactly one element and keeps the length |
| `PluglibFfi.FfiBoxedSlice.UpdateEach` | server/plugins/lib/src/ffi.rs:232-240 | a mutable iteration maps every element in place, position by position, and keeps the length |
| `PluglibFfi.FfiStrNew` | server/plugins/lib/src/ffi.rs:291-299 | construction succeeds iff the text holds a nul, and then points at that text |
| `PluglibFfi.FfiStrToStr` | server/plugins/lib/src/ffi.rs:303-307 | `to_str` is the nul-free prefix that stops right before the first nul |
| `PluglibFfi.FfiStrRoundTrip` | server/plugins/lib/src/ffi.rs:291-307 | `to_str` after `new` gives the text up to its first nul, hence the text itself without a single trailing nul |
| `PluglibFfi.FfiStrInteriorNul` | server/plugins/lib/src/ffi.rs:283-299 | against the doc comment, an interior nul is accepted and truncates: `"a\0b\0"` reads back as `"a"` |
| `PluglibFfi.FfiStrFromCStr` | server/plugins/lib/src/ffi.rs:317-325 | a string borrowed from a C string reads back its text |
| `PluglibFfi.NewFfiStrSpec` | server/plugins/lib/src/ffi.rs:381-390 | `new_ffistr!` never reaches its `unreachable!` arm, and reads back the literal up to its first nul |
| `PluglibFfi.CStringNew` | server/plugins/lib/src/ffi.rs:404-408 | the owned C string is built iff the text is nul-free, then it is the text plus a terminator; the error reports the first nul at its byte offset, the UTF-8 length of the text before it |
| `PluglibFfi.ReportsFirstNulUnique` | server/plugins/lib/src/ffi.rs:404-408 | a text admits only one error report: the first nul is unique |
| `PluglibFfi.NulPositionInBytes` | server/plugins/lib/src/ffi.rs:404-408 | the position counts bytes: in `"é\0"` the nul is reported at 2, not at character 1 |
| `PluglibFfi.NulPositionAscii` | server/plugins/lib/src/ffi.rs:404-408 | on ASCII text the byte offset is the nul's character index |
| `PluglibFfi.FfiString.FromCString` | server/plugins/lib/src/ffi.rs:404-408 | a nul-free text becomes a fresh, terminated buffer holding that text |
| `PluglibFfi.FfiString.New` | server/plugins/lib/src/ffi.rs:404-408 | `new` fails iff the text holds a nul, reporting the first nul's byte offset and the text; otherwise the buffer holds the text |
| `PluglibFfi.FfiString.StrLen` | server/plugins/lib/src/ffi.rs:421-425 | the scan for the terminator counts exactly the characters of the text |
| `PluglibFfi.FfiString.ToStr` | server/plugins/lib/src/ffi.rs:421-425 | `to_str` gives back the text stored |
| `PluglibFfi.FfiString.AsStr` | server/plugins/lib/src/ffi.rs:412-417 | the borrowed string reads back the same text |
| `PluglibFfi.FfiString.Clone` | server/plugins/lib/src/ffi.rs:427-432 | the clone is a fresh buffer with equal text, so the `unreachable!` of its re-creation is never taken |
| `PluglibFfi.FromDate` | server/plugins/lib/src/ffi.rs:514-519 | a date's Julian day always lies in the supported range |
| `PluglibFfi.ToDate` | server/plugins/lib/src/ffi.rs:520-525 | converting back panics exactly outside the supported range of days |
| `PluglibFfi.DateRoundTrip` | server/plugins/lib/src/ffi.rs:514-525 | date to day and back is the identity, and so is day to date and back when it does not panic |
| `PluglibFfi.DateCmpIsChronological` | server/plugins/lib/src/ffi.rs:509-512 | the derived order on the day number is the chronological order of the dates |
| `PluglibFfi.DateToValue` | server/plugins/lib/src/ffi.rs:527-542 | the SQL value is the ISO date text; the conversion panics (`unreachable!`) exactly when the day is out of range or the ISO formatter does not render a lone date |
| `PluglibFfi.DateToJson` | server/plugins/lib/src/ffi.rs:544-552 | the JSON value is the ISO date string; the conversion panics exactly when the day is out of range or the ISO formatter does not render a lone date |
| `PluglibFfi.DateSerialize` | server/plugins/lib/src/ffi.rs:554-559 | serialising gives the `time` crate's serialisation of the same day, and panics exactly out of range |
| `PluglibFfi.FromTime` | server/plugins/lib/src/ffi.rs:572-582 | hour, minute and second are kept |
| `PluglibFfi.ToTime` | server/plugins/lib/src/ffi.rs:583-588 | converting back never panics, has no sub-second part, and converts forward to the same value |
| `PluglibFfi.TimeRoundTrip` | server/plugins/lib/src/ffi.rs:572-588 | a time survives the round trip exactly when it has no sub-second part; otherwise that part is zeroed |
| `PluglibFfi.TimeCmp` | server/plugins/lib/src/ffi.rs:595-603 | the order is equal iff all three fields are, and less iff lexicographically less by hour, minute, second |
| `PluglibFfi.FromTimeMonotone` | server/plugins/lib/src/ffi.rs:572-603 | the conversion never inverts the order of two times, and a strict order of the converted values comes from a strict order of the times |
| `PluglibFfi.TimeToValue` | server/plugins/lib/src/ffi.rs:605-620 | the SQL value is the ISO text of the same hour, minute and second; the conversion panics exactly when the ISO formatter does not render a lone time |
| `PluglibFfi.TimeToJson` | server/plugins/lib/src/ffi.rs:622-630 | the JSON value is the ISO string of the same hour, minute and second; the conversion panics exactly when the ISO formatter does not render a lone time |
| `PluglibFfi.OptionToFfi` | server/plugins/lib/src/ffi.rs:658-666 | `Some` maps to `Some` with the same value, `None` to `None` |
| `PluglibFfi.FfiToOption` | server/plugins/lib/src/ffi.rs:673-681 | the reverse conversion keeps the case and the value |
| `PluglibFfi.ValueToFfiOption` | server/plugins/lib/src/ffi.rs:667-672 | a bare value reads back as `Some` of it |
| `PluglibFfi.OptionRoundTrip` | server/plugins/lib/src/ffi.rs:658-681 | the two option conversions are mutual inverses |
| `PluglibFfi.ResultToFfi` | server/plugins/lib/src/ffi.rs:715-723 | `Ok` and `Err` are kept with their payloads |
| `PluglibFfi.FfiToResult` | server/plugins/lib/src/ffi.rs:730-738 | the reverse conversion keeps the case and the payload |
| `PluglibFfi.ValueToFfiResult` | server/plugins/lib/src/ffi.rs:724-729 | a bare value reads back as `Ok` of it |
| `PluglibFfi.ResultRoundTrip` | server/plugins/lib/src/ffi.rs:715-738 | the two result conversions are mutual inverses |
| `PluglibMedia.HostAcceptsExactly` | server/plugins/lib/src/media.rs:13-18 | a plugin's library version passes the host's compatibility check with `0.2.0` iff it is a `0.2.x` version |
| `PluglibMedia.TypeToSql` | server/plugins/lib/src/media.rs:77-84 | integers and booleans are stored as `INTEGER`, reals as `REAL`, texts, dates and times as `TEXT`, blobs as `BLOB`, each iff |
| `PluglibMedia.TextFromStr` | server/plugins/lib/src/media.rs:126-141 | a text value is built iff the text is nul-free; otherwise the error reports the first nul at its byte offset |
| `PluglibMedia.TextFromFfiString` | server/plugins/lib/src/media.rs:120-125 | an owned C string becomes the text value of the text it holds |
| `PluglibMedia.DateFromDate` | server/plugins/lib/src/media.rs:166-171 | the date value holds a day that converts back to the same date |
| `PluglibMedia.TimeFromTime` | server/plugins/lib/src/media.rs:178-183 | the time value converts back to the same time with its sub-second part zeroed |
| `PluglibMedia.Serialize` | server/plugins/lib/src/media.rs:238-251 | a value serialises to a JSON array, other than a blob's byte array, exactly when it is a list |
| `PluglibMedia.SerializeList` | server/plugins/lib/src/media.rs:238-251 | a list serialises item by item, position by position, so nested lists give nested arrays |
| `PluglibMedia.ToSql` | server/plugins/lib/src/media.rs:207-221 | binding panics only on a time the ISO formatter does not render; a blob or a list is bound exactly as the JSON text of its serialisation, and nothing else is |
| `PluglibMedia.OptionToSql` | server/plugins/lib/src/media.rs:207-221 | `None` binds `NULL` and only `None` does; `Some` binds as its value, panicking exactly when that does |
| `PluglibMedia.ToValue` | server/plugins/lib/src/media.rs:191-205 | the owned SQL value panics exactly for a list (`unimplemented!`), a date out of range, or a date or time the ISO formatter does not render |
| `PluglibMedia.ToJson` | server/plugins/lib/src/media.rs:223-236 | the JSON conversion panics exactly for a list, a date out of range, or a date or time the ISO formatter does not render |
| `PluglibMedia.ToSqlAgainstToValue` | server/plugins/lib/src/media.rs:191-221 | the two SQL conversions agree on integers, reals, texts, booleans and times; they differ on dates (ISO text against the day number, which binding always gives), blobs (bytes against JSON) and lists (panic against JSON) |
| `PluglibMedia.ValueFitsColumnType` | server/plugins/lib/src/media.rs:191-221 | every value other than a list converts to a `Value` of the storage class its type's column names (media.rs:77-84); `ToSql` does too, except that a date binds as an INTEGER and a blob as TEXT |
| `PluglibMedia.ToJsonAgainstSerialize` | server/plugins/lib/src/media.rs:223-252 | the JSON conversion and the serialisation agree on integers, reals, texts, blobs and booleans; they differ on dates (ISO string against the day number), times (ISO string against the time's serialisation) and lists (panic against the array of items) |
| `PluglibMedia.FieldOfSpec` | server/plugins/lib/src/media.rs:255-270 | a generated field is identified by its identifier's spelling, named by its literal, typed by its first type token, and a list iff the tokens are that type then `list` |
| `PluglibMedia.FieldFromDecl` | server/plugins/lib/src/media.rs:255-270 | a field declaration expands iff its type tokens match one of the two macro arms |
| `PluglibMedia.FieldsFromDecls` | server/plugins/lib/src/media.rs:273-302 | the field list expands iff every declaration does, then holds one field per declaration in order |
| `PluglibMedia.PluginVersionOf` | server/plugins/lib/src/media.rs:286-288 | the plugin version is the package version parsed, or the default version when it does not parse |
| `PluglibMedia.MakePlugin` | server/plugins/lib/src/media.rs:273-302 | the macro expands iff every field declaration does; it exports the library version `0.2.0` and the parsed plugin version |
| `PluglibMedia.MakePluginDescriptor` | server/plugins/lib/src/media.rs:292-300 | the descriptor is identified by the media identifier and lists one field per declaration, in order, as declared |
| `PluglibMedia.UnparsableVersionIsPoison` | server/plugins/lib/src/media.rs:286-288 | a package version that does not parse makes the plugin version `0.0.0`, compatible with no version in either direction |
| `PluglibVersion.DefaultIsPoison` | server/plugins/lib/src/lib.rs:103-111 | the default version is compatible with nothing, in either direction |
| `PluglibVersion.CompatibleZeroMajors` | server/plugins/lib/src/lib.rs:103-111 | between two non-default `0.x` versions, compatibility is equality of minors |
| `PluglibVersion.CompatibleMajors` | server/plugins/lib/src/lib.rs:103-111 | otherwise compatibility is equality of majors, so `0.x` and `1.y` never match |
| `PluglibVersion.CompatibleIsPartialEquivalence` | server/plugins/lib/src/lib.rs:103-111 | compatibility is symmetric and transitive, reflexive exactly on non-default versions, and implies equal majors |
| `PluglibVersion.Cmp` | server/plugins/lib/src/lib.rs:144-152 | the order is equal iff the versions are, and otherwise lexicographic on major, minor, patch |
| `PluglibVersion.DefaultIsLeast` | server/plugins/lib/src/lib.rs:144-152 | the default version is below every version and above none other |
| `PluglibVersion.CompatibleIsConvex` | server/plugins/lib/src/lib.rs:103-152 | a version ordered between two compatible versions is compatible with both |
| `PluglibVersion.Part` | server/plugins/lib/src/lib.rs:119-126 | a missing piece reads as 0, a present one must parse as a `u8` |
| `PluglibVersion.ParseSpec` | server/plugins/lib/src/lib.rs:116-136 | parsing succeeds iff each of the first three dot-separated pieces that are present parses as a `u8`, and then reads them as major, minor, patch |
| `PluglibVersion.SplitDots` | server/plugins/lib/src/lib.rs:117 | splitting a dot-joined list of dot-free pieces gives the pieces back |
| `PluglibVersion.ParseMissingParts` | server/plugins/lib/src/lib.rs:119-126 | missing pieces default to 0: `"1"` is `1.0.0` |
| `PluglibVersion.ParseExtraParts` | server/plugins/lib/src/lib.rs:127-135 | pieces beyond the third are ignored: `"1.2.3.4"` is `1.2.3` |
| `PluglibVersion.ParseRejectsEmpty` | server/plugins/lib/src/lib.rs:116-136 | the empty string is rejected as an empty number |
| `PluglibVersion.ParseRejectsOverflow` | server/plugins/lib/src/lib.rs:116-136 | a piece above 255 is rejected as an overflow |
| `PluglibVersion.ParseRejectsPreRelease` | server/plugins/lib/src/lib.rs:116-136 | a pre-release suffix such as `0.1.0-alpha` is rejected |
| `PluglibVersion.DisplayWithoutPrefixParses` | server/plugins/lib/src/lib.rs:153-157 | the display form starts with `v`, and without it parses back to the same version |
| `PluglibVersion.DisplayIsRejected` | server/plugins/lib/src/lib.rs:116-157 | the display form itself does not parse: its first piece starts with `v` |
| `ServerPlugins.ParseKind` | server/src/plugins.rs:181-186 | a plugin kind parses exactly from the text `media` |
| `ServerPlugins.KindToSql` | server/src/plugins.rs:204-211 | a plugin kind is stored as SQL text |
| `ServerPlugins.KindFromSql` | server/src/plugins.rs:196-200 | a stored kind reads back exactly from the text `media`; a value that is not text is a type error |
| `ServerPlugins.KindRoundTrips` | server/src/plugins.rs:177-211 | a kind displays as `media`, and both its display and its stored form read back to the same kind |
| `ServerPlugins.KeyOf` | server/src/plugins.rs:249-262 | a plugin record is keyed by its name and kind only |
| `ServerPlugins.SameRecordIsSameKey` | server/src/plugins.rs:249-262 | two records are equal exactly when their keys are, whatever their versions |
| `ServerPlugins.StoredVersions` | server/src/plugins.rs:110-125 | the stored versions are exactly the readable rows of the plugins table; unreadable rows are dropped |
| `ServerPlugins.NeedsRebuildSpec` | server/src/plugins.rs:126-136 | a plugin whose version is the default always needs a rebuild; records of other plugins do not matter; a plugin whose stored version is its own needs none unless its version is the default |
| `ServerPlugins.RebuildExamples` | server/src/plugins.rs:126-136 | `1.2.0` stored and `1.3.0` loaded needs no rebuild; `2.0.0` or a `0.2` to `0.3` change needs one; an unstored plugin always needs one |
| `ServerPlugins.DataDirs` | server/src/plugins.rs:54-58 | each system data directory contributes its own plugin directory, in order, and none when the variable is unset |
| `ServerPlugins.PluginDirsOrder` | server/src/plugins.rs:33-61 | the plugin directories are the executable's, then the user data directory's, then the system data directories', in that order |
| `ServerPlugins.GetPluginDirs` | server/src/plugins.rs:33-61 | the directories collected step by step are the ordered list above |
| `ServerPlugins.MediaCandidateByName` | server/src/plugins.rs:83-89 | a directory entry is tried as a media plugin exactly when its extension is `media`, and then it is named by its non-empty stem |
| `ServerPlugins.MediaCandidateExample` | server/src/plugins.rs:83-89 | `music.media` is tried and named `music` |
| `ServerPlugins.DotFileIsIgnored` | server/src/plugins.rs:83-89 | a hidden file without an extension, such as `.media`, is not tried |
| `ServerPlugins.BackupIsIgnored` | server/src/plugins.rs:83-89 | `music.media.bak` is not tried |
| `ServerMediaPlugin.TryFrom` | server/src/plugins/media.rs:41-79 | loading succeeds exactly when the library opens and is loadable; the plugin is then named by the file stem and carries the library's version, descriptor and both indexing symbols |
| `ServerMediaPlugin.IncompatibleRejectedFirst` | server/src/plugins/media.rs:50-57 | an incompatible library version is reported before any other symbol is looked up |
| `ServerMediaPlugin.LoadedIsPluglib02` | server/src/plugins/media.rs:50-57 | every loaded media plugin was built against a `0.2` plugin library |
| `ServerMediaPlugin.TableIdentInjective` | server/src/plugins/media.rs:110-112 | table names start with `media_`, and two media share a table exactly when their identifiers are equal |
| `ServerMediaPlugin.ColumnType` | server/src/plugins/media.rs:316-326 | a list field is a JSON array text column, any other field takes its type's SQL column type |
| `ServerMediaPlugin.ColumnsSpec` | server/src/plugins/media.rs:312-326 | a media table has the path key, the modification time, then one column per field in order |
| `ServerMediaPlugin.ColumnsPrefixStep` | server/src/plugins/media.rs:312-326 | one more field adds exactly its column definition at the end |
| `ServerMediaPlugin.TableColumns` | server/src/plugins/media.rs:312-326 | the columns built step by step are the ordered column list above |
| `ServerMediaPlugin.BindHasOnePlaceholder` | server/src/plugins/media.rs:156-162 | each field's value bind holds exactly one `?` |
| `ServerMediaPlugin.InsertNames` | server/src/plugins/media.rs:153-154 | the insert names `path`, `mtime`, then each field's identifier in order |
| `ServerMediaPlugin.InsertBinds` | server/src/plugins/media.rs:155-162 | the insert binds two plain `?`, then one bind per field, in order |
| `ServerMediaPlugin.InsertPlaceholders` | server/src/plugins/media.rs:153-168 | every bind holds exactly one placeholder, so the statement takes one parameter per column |
| `ServerMediaPlugin.InsertPrefixStep` | server/src/plugins/media.rs:153-162 | one more field adds exactly its column name and its bind at the end of the two lists |
| `ServerMediaPlugin.InsertStatement` | server/src/plugins/media.rs:153-162 | the names and binds built step by step are the two lists above |
| `ServerMediaPlugin.Select` | server/src/plugins/media.rs:181-209 | a walked entry is a candidate exactly when it was reached through visible names, is not a directory, its name's MIME type is supported and its path is known |
| `ServerMediaPlugin.Candidates` | server/src/plugins/media.rs:181-209 | the candidates are exactly the selected entries |
| `ServerMediaPlugin.SupportedSet` | server/src/plugins/media.rs:127-131 | the supported set holds exactly the texts of the plugin's supported types |
| `ServerMediaPlugin.HiddenNeverCandidate` | server/src/plugins/media.rs:184-196 | nothing below a name starting with `.` is ever indexed |
| `ServerMediaPlugin.Bound` | server/src/plugins/media.rs:252-255 | an extracted slot binds `NULL` exactly when it is empty, and otherwise binds as its value converts |
| `ServerMediaPlugin.FieldValues` | server/src/plugins/media.rs:252-255 | each extracted slot becomes one SQL value, `NULL` for an empty slot |
| `ServerMediaPlugin.Extracted` | server/src/plugins/media.rs:229-246 | a candidate yields a pending row exactly when extraction succeeds, with its path, modification time and one value per slot |
| `ServerMediaPlugin.Mtimes` | server/src/plugins/media.rs:135-144 | the cache maps each stored path to its stored modification time |
| `ServerMediaPlugin.NewRow` | server/src/plugins/media.rs:218-246 | a cached file not newer than its cached time is skipped; otherwise a row is written exactly when extraction succeeds and the insert is admitted |
| `ServerMediaPlugin.Paths` | server/src/plugins/media.rs:173-260 | the set of candidate paths holds exactly the paths of the candidates |
| `ServerMediaPlugin.WalkCached` | server/src/plugins/media.rs:218-222 | after the pass the cache holds exactly the paths that no candidate removed |
| `ServerMediaPlugin.WalkRows` | server/src/plugins/media.rs:262-273 | the pass only adds rows at candidate paths, and leaves every other row alone |
| `ServerMediaPlugin.WalkAt` | server/src/plugins/media.rs:218-273 | after the pass, each candidate's row is the new row if one was made, and otherwise what it was |
| `ServerMediaPlugin.NoChange` | server/src/plugins/media.rs:218-273 | a pass in which no candidate makes a row leaves the rows unchanged |
| `ServerMediaPlugin.IndexKeys` | server/src/plugins/media.rs:262-282 | after indexing, only candidate paths have rows; every stored path the walk did not find is deleted, every found one kept |
| `ServerMediaPlugin.IndexRowAt` | server/src/plugins/media.rs:218-282 | a found file gets its new row, or keeps its old one; a file not newer than its stored time is never re-extracted |
| `ServerMediaPlugin.WalkShape` | server/src/plugins/media.rs:247-255 | every row has one value per field when every stored row does |
| `ServerMediaPlugin.Idempotent` | server/src/plugins/media.rs:118-291 | indexing the same files twice gives the same table as indexing them once |
| `ServerMediaPlugin.MediaTable.constructor` | server/src/plugins/media.rs:135-144 | the table starts with the stored rows |
| `ServerMediaPlugin.MediaTable.LoadMedia` | server/src/plugins/media.rs:118-291 | loading media leaves the table as the index of the candidates the walk selects |
| `ServerMediaPlugin.MediaTable.Index` | server/src/plugins/media.rs:171-282 | the rows after the pass, the inserts and the delete are the index specification |
| `ServerMediaPlugin.Rebuild` | server/src/plugins/media.rs:304-349 | rebuilding fails exactly on a duplicate record under the abort policy; otherwise it records the plugin's version, recreates its table with its columns, and leaves every other record and table alone |
| `ServerMediaPlugin.RebuildSettles` | server/src/plugins/media.rs:304-349 | after a rebuild, a plugin with a non-default version no longer needs one |
| `ServerMediaPlugin.StaleRecordBlocksRebuild` | server/src/plugins/media.rs:339-346 | a stale stored record makes the rebuild fail under the abort policy and succeed under the replace policy |
| `ServerPluginStore.EntryPaths` | server/src/plugins.rs:79-80 | a listing yields at most one path per entry, since unreadable entries are dropped |
| `ServerPluginStore.Loaded` | server/src/plugins.rs:82-97 | a path yields a plugin exactly when it is a media candidate and loading it succeeds, and the plugin is named by the path's stem |
| `ServerPluginStore.LoadAllSpec` | server/src/plugins.rs:81-100 | after loading, the store's names are the ones it had plus the names of every path that loaded |
| `ServerPluginStore.LoadAllNamed` | server/src/plugins.rs:89-92 | every plugin stays filed under its own name |
| `ServerPluginStore.LoadAllLastWins` | server/src/plugins.rs:89-92 | of two plugins with one name, the one found last is kept |
| `ServerPluginStore.DbOf` | server/src/plugins.rs:227-236 | a loaded plugin's record is keyed by its name and the media kind and carries its version |
| `ServerPluginStore.PluginStore.constructor` | server/src/plugins.rs:27-30 | a store starts without plugins |
| `ServerPluginStore.PluginStore.LoadPlugins` | server/src/plugins.rs:64-103 | the loaded store holds what loading every entry of every plugin directory, in order, gives |
| `ServerPluginStore.PluginStore.LoadFromDirs` | server/src/plugins.rs:69-100 | loading the directories one by one gives the same as loading all their paths in order; an unreadable or missing directory adds nothing |
| `ServerPluginStore.PluginStore.LoadDir` | server/src/plugins.rs:79-99 | loading a listing entry by entry gives the same as loading its paths in order |
| `ServerPluginStore.PluginStore.UpdateDatabase` | server/src/plugins.rs:106-144 | every plugin that needs a rebuild and can have one is recorded with its version and has its table, with exactly its fields' columns when no other rebuilt plugin shares the table; every other record is untouched; no table is lost, and tables of plugins not rebuilt keep their columns |
| `ServerPluginStore.PluginStore.UpdatePlugin` | server/src/plugins.rs:126-141 | handling one plugin keeps the progress invariant, with that plugin done |
| `ServerPluginStore.PluginStore.MediaTargets` | server/src/plugins.rs:153-155 | only plugins named in the configuration load media, each with its own configuration |
| `ServerPluginStore.RebuildOutcome` | server/src/plugins.rs:136-139 | a plugin's rebuild succeeds exactly under the replace policy or when it had no stored record |
| `ServerPluginStore.ProgressDone` | server/src/plugins.rs:126-141 | once every plugin is handled, the progress invariant gives the update's whole contract |
| `ServerPluginStore.UpdateSettles` | server/src/plugins.rs:106-144 | after an update under the replace policy, no loaded plugin with a non-default version needs a rebuild any more |
| `MediaMusic.MusicDescriptor` | server/plugins/media-music/src/lib.rs:82-86 | the music plugin describes media `music` with a plain text `title` and a text list `artists` |
| `MediaMusic.FormatMimes` | server/plugins/media-music/src/lib.rs:106-127 | a known format maps to a non-empty list of nul-free `audio/` MIME types |
| `MediaMusic.AacKeySpelling` | server/plugins/media-music/src/lib.rs:118-127 | the table is keyed `acc`, not `aac`, so ffprobe's `aac` format adds nothing; `mp3` and `adts` give two types each |
| `MediaMusic.LineFormat` | server/plugins/media-music/src/lib.rs:104 | the format named by a listing line is its second whitespace-separated token, when there is one |
| `MediaMusic.SeparatorLineNamesNothing` | server/plugins/media-music/src/lib.rs:104 | a line with a single token names no format |
| `MediaMusic.ListingLineExample` | server/plugins/media-music/src/lib.rs:104 | the line `D mp3` names `mp3` |
| `MediaMusic.MimesOfMember` | server/plugins/media-music/src/lib.rs:100-130 | a MIME type is supported exactly when some listing line maps to it, and it is then an `audio/` type |
| `MediaMusic.MimesOfAppend` | server/plugins/media-music/src/lib.rs:100-130 | the listing's lines contribute their types in order |
| `MediaMusic.HeaderSkipped` | server/plugins/media-music/src/lib.rs:101-102 | the first four lines of the listing are ignored |
| `MediaMusic.SupportedTypes` | server/plugins/media-music/src/lib.rs:90-133 | the exported types are the parsed listing in order, all `audio/` types, and none when ffprobe cannot be run |
| `MediaMusic.ExtractMetadata` | server/plugins/media-music/src/lib.rs:160-184 | extraction succeeds exactly when ffprobe exits successfully with readable tags; it yields two slots, the title when present and nul-free, and an always-empty artists slot |
| `MediaMusic.ExtractionFitsDescriptor` | server/plugins/media-music/src/lib.rs:82-184 | the extracted slots match the descriptor: one per field, and the title slot holds text |
| `MediaMusic.MusicPluginLoads` | server/plugins/media-music/src/lib.rs:82-86 | the music plugin passes the host's loading checks and reports its parsed package version |
| `CommonLibrary.KindToU8` | common/src/library.rs:19-25 | a library kind's discriminant is 0 or 1 |
| `CommonLibrary.KindFromU8` | common/src/library.rs:16-25 | a byte converts to a library kind exactly when it is 0 or 1; otherwise the error carries the byte |
| `CommonLibrary.KindRoundTrip` | common/src/library.rs:16-25 | kind to byte to kind is the identity, and so is byte to kind to byte on the accepted bytes |
| `CommonLibrary.KindFromDb` | common/src/library.rs:181 | a stored kind is cast to its low byte first, then converted |
| `CommonLibrary.KindFromDbTruncates` | common/src/library.rs:181 | stored kinds 256 and 257 read as image and music; -1 fails as byte 255 |
| `CommonLibrary.Extensions` | common/src/library.rs:29-34 | each kind has at least one extension, none empty or dotted |
| `CommonLibrary.ExtensionsDisjoint` | common/src/library.rs:29-34 | no extension belongs to both kinds, and `mp3` is the only music extension |
| `CommonLibrary.ValidateForm` | common/src/library.rs:42-48 | a submitted library passes exactly when its name and its path list are non-empty, and each failure is reported |
| `CommonLibrary.RawFromConfig` | common/src/library.rs:50-58 | dropping the id keeps the name, kind and paths |
| `CommonLibrary.PartialFromConfig` | common/src/library.rs:84-93 | dropping the paths keeps the id, name and kind |
| `CommonLibrary.LibraryNew` | common/src/library.rs:117-124 | a full library takes its identity from the partial one and its media as given |
| `CommonLibrary.SplitJoinPaths` | common/src/library.rs:145-162 | splitting joined paths gives them back when there is at least one and none contains the separator |
| `CommonLibrary.JoinSplitPaths` | common/src/library.rs:145-162 | joining split text gives it back |
| `CommonLibrary.SplitJoinPathsLosses` | common/src/library.rs:145-162 | the documented inverse fails otherwise: no paths come back as one empty path, and a path holding `:` comes back as two |
| `CommonLibrary.DbRawFromRaw` | common/src/library.rs:164-173 | storing keeps the name, stores the kind's discriminant and joins the paths |
| `CommonLibrary.RawFromDbRaw` | common/src/library.rs:174-185 | reading fails exactly when the kind's low byte is not a kind, and otherwise keeps the name and splits the paths |
| `CommonLibrary.DbRawFromDb` | common/src/library.rs:186-195 | dropping the stored id keeps the stored name, kind and paths |
| `CommonLibrary.DbFromConfig` | common/src/library.rs:209-219 | storing a library configuration casts the id, keeps the name and stores a kind that reads back |
| `CommonLibrary.ConfigFromDb` | common/src/library.rs:220-231 | reading a stored configuration fails exactly on a bad kind, and otherwise casts the id back and splits the paths |
| `CommonLibrary.DbPartialFromPartial` | common/src/library.rs:243-252 | storing a partial library casts the id and stores a kind that reads back |
| `CommonLibrary.PartialFromDbPartial` | common/src/library.rs:253-264 | reading a stored partial library fails exactly on a bad kind |
| `CommonLibrary.DbPartialFromDb` | common/src/library.rs:265-274 | dropping the stored paths keeps the stored id, name and kind |
| `CommonLibrary.ConfigRoundTrip` | common/src/library.rs:209-231 | a configuration always reads back, and reads back unchanged exactly when its paths survive joining and splitting |
| `CommonLibrary.DbConfigRoundTrip` | common/src/library.rs:209-231 | a stored configuration with a valid kind survives reading and storing again |
| `CommonLibrary.RawRoundTrip` | common/src/library.rs:164-185 | a submitted library with separable paths survives storing and reading |
| `CommonLibrary.PartialRoundTrip` | common/src/library.rs:243-264 | a partial library survives storing and reading |
| `CommonLibrary.DroppingCommutesWithStoring` | common/src/library.rs:186-274 | dropping fields before storing gives the same as dropping them after |
| `CommonMedia.Title` | common/src/media.rs:22-48 | a media's title is its record's own title |
| `CommonMedia.DbFromImage` | common/src/media.rs:62-70 | storing an image casts its id to `i64` and keeps its title |
| `CommonMedia.ImageFromDb` | common/src/media.rs:71-79 | reading an image casts its id back to `u64` |
| `CommonMedia.WidenTrack` | common/src/media.rs:103 | a track number widens without change |
| `CommonMedia.NarrowTrack` | common/src/media.rs:115 | a stored track number keeps only its low 16 bits |
| `CommonMedia.DbFromMusic` | common/src/media.rs:95-106 | storing a track casts its id and widens its number, keeping the other fields |
| `CommonMedia.MusicFromDb` | common/src/media.rs:107-118 | reading a track casts its id back and narrows its number |
| `CommonMedia.ImageRoundTrip` | common/src/media.rs:62-79 | images and stored image rows survive the round trip in both directions |
| `CommonMedia.MusicRoundTrip` | common/src/media.rs:95-118 | a track survives storing and reading |
| `CommonMedia.DbMusicRoundTrip` | common/src/media.rs:95-118 | a stored track row survives reading and storing exactly when its number fits in 16 bits |
| `CommonMedia.MusicFromDbTruncates` | common/src/media.rs:107-118 | stored number 65 537 reads as 1, stored id -1 as 2^64 - 1 |
| `CommonMedia.TitleIsStoredTitle` | common/src/media.rs:22-118 | the title shown for a stored media is the stored title |
| `ServerTasks.Prefix` | server/src/tasks.rs:19-31 | the entries handled before the first failing one are a prefix of the listing, all resolved, and stop exactly at a failure |
| `ServerTasks.FilesAndDirsOf` | server/src/tasks.rs:26-30 | a path is among the files or the directories of a listing exactly when it was resolved as one |
| `ServerTasks.ParseEntriesSpec` | server/src/tasks.rs:19-32 | directories found before a failure are queued even when the listing then fails; the files come back only when no entry fails |
| `ServerTasks.ParseDirSpec` | server/src/tasks.rs:11-33 | an unreadable directory queues nothing and fails; a listing queues its directories up to the first failure and returns all its files exactly when no entry fails |
| `ServerTasks.DirItems` | server/src/tasks.rs:48-51 | a directory contributes one error item, or each of its files in order |
| `ServerTasks.QueuedWithin` | server/src/tasks.rs:29 | what a directory queues stays in the finite file tree |
| `ServerTasks.WalkItems` | server/src/tasks.rs:35-56 | the walk's output is the items of each expanded directory, in expansion order |
| `ServerTasks.WalkSkip` | server/src/tasks.rs:44-47 | a visited path at the head of the queue is dropped without output |
| `ServerTasks.WalkExpand` | server/src/tasks.rs:44-52 | an unvisited head is marked visited, listed, and its items come before everything after it |
| `ServerTasks.WalkExpandsOnce` | server/src/tasks.rs:41-47 | no directory is expanded twice, and none that was visited before |
| `ServerTasks.WalkCoversQueue` | server/src/tasks.rs:40-47 | every queued path ends up visited or expanded |
| `ServerTasks.ChildrenOfHeadCovered` | server/src/tasks.rs:44-52 | the subdirectories of an expanded head are all visited or expanded in the end |
| `ServerTasks.WalkClosed` | server/src/tasks.rs:35-56 | the walk is closed: the subdirectories of every expanded directory are visited or expanded too |
| `ServerTasks.Walker.constructor` | server/src/tasks.rs:40-41 | a walk starts with its roots queued and nothing visited |
| `ServerTasks.Walker.ParseDir` | server/src/tasks.rs:11-33 | listing a directory entry by entry appends to the queue and returns what the listing specification says |
| `ServerTasks.Walker.Next` | server/src/tasks.rs:42-54 | each step yields the next directory's items, which with the rest of the walk make up the whole walk, or ends with an empty queue |
| `ServerTasks.Walker.Run` | server/src/tasks.rs:35-56 | draining the stream yields exactly the walk's items |
| `ServerTasks.Keep` | server/src/tasks.rs:103-115 | errors pass through; a path passes exactly when its extension is one of the kind's, compared case-sensitively |
| `ServerTasks.KeepIsCaseSensitive` | server/src/tasks.rs:110-114 | `a.mp3` is kept in a music library, `a.MP3` is not |
| `ServerTasks.ExtensionExamples` | server/src/tasks.rs:110 | the extension of `a.mp3` is `mp3`, of `a.MP3` is `MP3` |
| `ServerTasks.OkPaths` | server/src/tasks.rs:121-122 | the set of found paths holds exactly the paths of the successful items |
| `ServerTasks.ScanAllReturns` | server/src/tasks.rs:116-166 | the scan completes exactly when every found path has a file name |
| `ServerTasks.ScanAllSpec` | server/src/tasks.rs:116-166 | after the scan the table holds the old rows plus each found path titled by its file name, and the found marks are the old rows that were found |
| `ServerTasks.ReconcileSpec` | server/src/tasks.rs:89-177 | after indexing, the library's rows are exactly the found paths; old rows keep their titles, new rows are titled by their file names |
| `ServerTasks.LibraryTable.constructor` | server/src/tasks.rs:89-99 | the table starts with the stored rows |
| `ServerTasks.LibraryTable.IndexLibrary` | server/src/tasks.rs:58-177 | indexing leaves the table as the reconciliation of the old rows with the filtered walk of the configured roots, and never panics |
| `ServerTasks.LibraryTable.Consume` | server/src/tasks.rs:102-177 | consuming walked items one by one gives the reconciliation of the old rows with the kept items |
| `ServerTasks.FilteredHaveTitles` | server/src/tasks.rs:110-130 | every path that passes the filter has a file name, so the title lookup never panics |
| `ServerTasks.FilteredNeverPanics` | server/src/tasks.rs:110-130 | reconciling against filtered items always completes |
| `ServerProc.StaticConfigWithoutPlaceholder` | server/proc/src/lib.rs:47 | a configuration without `{version}` is included unchanged |
| `ServerProc.StaticConfigFillsPlaceholder` | server/proc/src/lib.rs:47 | the first `{version}` is replaced by the package version where it stands, whatever other braces precede it, and the rest is filled the same way, so every `{version}` is replaced left to right |
| `ServerProc.StaticConfigAfterBrace` | server/proc/src/lib.rs:47 | a brace before the placeholder does not disturb it: `{} {version}` becomes `{} 0.1` |
| `ServerProc.DigitsOf` | server/proc/src/lib.rs:70-73 | the kept characters are exactly the name's ASCII digits |
| `ServerProc.MigrationNumber` | server/proc/src/lib.rs:70-75 | the number is the value of all the name's digits, and parsing panics exactly when there are none or the value exceeds `u32::MAX` |
| `ServerProc.DigitsAnywhere` | server/proc/src/lib.rs:70-75 | digits are gathered from anywhere in the name: `migration_v1_2.sql` is migration 12 |
| `ServerProc.DigitsOfExample` | server/proc/src/lib.rs:70-73 | helper for `DigitsAnywhere`: the digits of `1_2` are `12` |
| `ServerProc.ExampleNameDigits` | server/proc/src/lib.rs:70-73 | helper for `DigitsAnywhere`: the digits of `migration_v1_2.sql` are `12`, gathered across the underscore |
| `ServerProc.DigitsOfConcat` | server/proc/src/lib.rs:70-73 | the digits of a concatenation are those of its parts, in order |
| `ServerProc.NoDigitsIn` | server/proc/src/lib.rs:70-73 | a text without ASCII digits contributes none |
| `ServerProc.MigrationDigits` | server/proc/src/lib.rs:68-73 | `migration_v<m>.sql` is a migration name, and its digits are those of `m` |
| `ServerProc.NoDigitsPanics` | server/proc/src/lib.rs:66-76 | the entry `migration_v.sql` matches the migration pattern but has no digits, so picking it panics whatever the file holds (and by `CollectReturns` so does collecting any directory that lists it) |
| `ServerProc.Pick` | server/proc/src/lib.rs:65-79 | an unreadable entry, a non-UTF-8 name or a name that is not `migration_v*.sql` is skipped; a matching name panics when its number does not parse or its file does not read, and otherwise yields its number and contents |
| `ServerProc.CollectReturns` | server/proc/src/lib.rs:64-80 | collecting completes exactly when every entry completes |
| `ServerProc.CollectMembers` | server/proc/src/lib.rs:64-80 | a completed collection holds a migration exactly when some entry yields it |
| `ServerProc.CollectSpec` | server/proc/src/lib.rs:64-80 | collecting completes exactly when no entry panics, and then holds exactly the migrations the entries yield |
| `ServerProc.InsertPermutes` | server/proc/src/lib.rs:81 | inserting adds exactly one migration |
| `ServerProc.InsertSorted` | server/proc/src/lib.rs:81 | inserting into a sorted list keeps it sorted |
| `ServerProc.InsertStable` | server/proc/src/lib.rs:81 | inserting keeps migrations of equal number in their original order |
| `ServerProc.SortByNumberSorts` | server/proc/src/lib.rs:81 | sorting orders migrations by number and permutes them |
| `ServerProc.SortByNumberStable` | server/proc/src/lib.rs:81 | sorting is stable: migrations of one number keep the directory's order |
| `ServerProc.InsertAt` | server/proc/src/lib.rs:81 | a migration lands after every smaller-or-equal one and before every greater one |
| `ServerProc.ShiftGreater` | server/proc/src/lib.rs:81 | the greater migrations before the slot move up by one, and the rest stays |
| `ServerProc.InsertLast` | server/proc/src/lib.rs:81 | the array's prefix becomes the prefix with its next migration inserted; the tail stays |
| `ServerProc.SortMigrations` | server/proc/src/lib.rs:81 | the array is sorted in place into the stable sort of its contents |
| `ServerProc.ContentsOf` | server/proc/src/lib.rs:82-85 | the output keeps each migration's contents, in order |
| `ServerProc.IncludeMigrations` | server/proc/src/lib.rs:57-95 | the expansion computed step by step is the included migrations' specification |
| `ServerProc.IncludedMigrationsOrdered` | server/proc/src/lib.rs:57-95 | a successful expansion lists the contents of all collected migrations ordered by number |
| `ServerHttp.FmtDuration` | server/src/http.rs:145-156 | one second or more shows in seconds, one millisecond or more in milliseconds, anything shorter in microseconds |
| `ServerHttp.FmtDurationReadsBack` | server/src/http.rs:145-156 | the printed count with its unit brackets the duration to within one unit |
| `ServerHttp.FmtDurationNumber` | server/src/http.rs:145-156 | the printed number parses back to the truncated count |
| `ServerHttp.FmtDurationThresholds` | server/src/http.rs:145-156 | 999 999 ns shows in microseconds, 1 ms and 999 ms in milliseconds, 1 s in seconds |
| `ServerHttp.HostText` | server/src/http.rs:81-88 | a V4 host's text splits at its dots into exactly the four octets in decimal; a V6 host's text is its address in brackets |
| `ServerHttp.AddrText` | server/src/http.rs:81-88 | a socket address's text is its host's text, a colon and the port in decimal, and nothing else |
| `ServerHttp.ClientLabel` | server/src/http.rs:81-88 | the client is shown by its address, and as `anonymous` exactly when none is attached |
| `ServerHttp.ReqToResExtensions` | server/src/http.rs:67-78 | the response keeps the handler's status and carries the request's client address when the request had one, and is the handler's own otherwise |
| `ServerHttp.TraceLinesAgree` | server/src/http.rs:67-88 | request and response trace lines name the same client, provided the request carries an address or the handler's response carries none |

## Definitions

The functions and predicates below define the source's operations without contracts of their own. The members named in the last column state their properties, and their rows are in the table above.

| definition | source | stated by |
|---|---|---|
| `PluglibVersion.IsCompatible` | server/plugins/lib/src/lib.rs:103-111 | CompatibleZeroMajors, CompatibleMajors, DefaultIsPoison, CompatibleIsPartialEquivalence, CompatibleIsConvex |
| `PluglibVersion.Parse` | server/plugins/lib/src/lib.rs:116-136 | ParseSpec and the Parse… examples |
| `PluglibVersion.Display` | server/plugins/lib/src/lib.rs:153-157 | DisplayWithoutPrefixParses, DisplayIsRejected |
| `ServerPlugins.NeedsRebuild` | server/src/plugins.rs:126-136 | NeedsRebuildSpec, RebuildExamples |
| `ServerPlugins.PluginDirs` | server/src/plugins.rs:33-61 | PluginDirsOrder, GetPluginDirs |
| `ServerPlugins.IsMediaCandidate` | server/src/plugins.rs:83-89 | MediaCandidateByName and its examples |
| `ServerPluginStore.LoadAll` | server/src/plugins.rs:81-100 | LoadAllSpec, LoadAllNamed, LoadAllLastWins |
| `ServerMediaPlugin.TableIdent` | server/src/plugins/media.rs:110-112 | TableIdentInjective |
| `ServerMediaPlugin.Columns` | server/src/plugins/media.rs:312-326 | ColumnsSpec, TableColumns |
| `ServerMediaPlugin.Step` | server/src/plugins/media.rs:218-257 | WalkAt, WalkCached, WalkRows |
| `ServerMediaPlugin.Walk` | server/src/plugins/media.rs:218-273 | WalkAt, WalkCached, WalkRows, WalkShape, NoChange |
| `ServerMediaPlugin.IndexSpec` | server/src/plugins/media.rs:218-282 | IndexKeys, IndexRowAt, Idempotent, MediaTable.Index |
| `ServerTasks.Walk` | server/src/tasks.rs:35-56 | WalkItems, WalkSkip, WalkExpand, WalkExpandsOnce, WalkClosed, Walker.Run |
| `ServerTasks.ScanAll` | server/src/tasks.rs:116-166 | ScanAllReturns, ScanAllSpec |
| `ServerTasks.Reconcile` | server/src/tasks.rs:89-177 | ReconcileSpec, LibraryTable.Consume, FilteredNeverPanics |
| `ServerProc.StaticConfig` | server/proc/src/lib.rs:47 | StaticConfigWithoutPlaceholder, StaticConfigFillsPlaceholder |
| `ServerProc.Collect` | server/proc/src/lib.rs:64-80 | CollectReturns, CollectMembers, CollectSpec |
| `ServerProc.SortByNumber` | server/proc/src/lib.rs:81 | SortByNumberSorts, SortByNumberStable, SortMigrations |
| `ServerProc.IncludedMigrations` | server/proc/src/lib.rs:57-95 | IncludedMigrationsOrdered, IncludeMigrations |
| `MediaMusic.MimesOf` | server/plugins/media-music/src/lib.rs:103-130 | MimesOfMember, MimesOfAppend |
| `MediaMusic.ParseFormats` | server/plugins/media-music/src/lib.rs:100-130 | HeaderSkipped, SupportedTypes |
| `CommonLibrary.JoinPaths` | common/src/library.rs:145-151 | SplitJoinPaths, JoinSplitPaths, SplitJoinPathsLosses |
| `CommonLibrary.SplitPaths` | common/src/library.rs:153-162 | SplitJoinPaths, JoinSplitPaths, SplitJoinPathsLosses |

## Left out

- Logging, tracing output and timing (`Instant`) are not modelled. Where the source only logs an error and carries on, the model carries on too.
- Floating point is kept as an uninterpreted bit pattern.
  - ServerHttp.FmtDuration: the seconds branch (`{:.3}s` of `as_secs_f32`) is represented by the duration it formats, not by its text.
  - PluglibMedia: the JSON form of a real is `null` exactly for non-finite values. Otherwise its digits are not spelled out.
- Text produced by serde_json's writer and by the `time` crate's ISO 8601 formatter is symbolic: it is identified by the value formatted. Whether `format(&Iso8601::DEFAULT)` renders a date on its own and a time on its own is decided inside the `time` crate, which is not part of this model; the conversions take that outcome as an `IsoFormatter` parameter and panic (`unreachable!`) where it fails.
- The `plugins` table's schema lives in the SQL migrations, which are not part of this model.
  - Whether inserting a record for an already-stored plugin is rejected or replaces the row is therefore a parameter (`ConflictPolicy`).
  - ServerMediaPlugin.StaleRecordBlocksRebuild shows what each choice does.
- SQL errors and connection-pool failures are not modelled:
  - prepare, `execute`, `finalize`, `commit`, `db_pool.get`;
  - the `db_op!` early returns in `index_library`.

  Each statement is modelled as succeeding, except the per-row insert, whose outcome is a parameter (`accepts`).
- ServerPluginStore.PluginStore.MediaTargets: the parallel iteration over plugins and the busy loop on `db_pool.try_get` (plugins.rs:153-166) are not modelled. Only the selection of the plugins to run and their configuration is stated.
- ServerMediaPlugin.MediaTable.LoadMedia: the walk runs in parallel and sends rows over a channel (media.rs:171-260). The model processes candidates in walk order. The resulting table does not depend on that order for distinct paths (`WalkAt`, `Idempotent`).
- ServerMediaPlugin.Select: `mime_db::lookup` is a parameter. The walk's own behaviour is an input sequence of entries: symbolic-link following, the entry filter on non-Unix targets, and I/O errors as `Err` entries.
- ServerMediaPlugin.Extracted: an unavailable modification time makes the source panic (`expect`, media.rs:215). The model takes the time as part of the walked entry and does not model that panic.
- ServerMediaPlugin.MediaTable.Index: paths that are not valid UTF-8 are dropped by the walk (media.rs:216). The model receives them already dropped.
- ServerTasks.LibraryTable.IndexLibrary:
  - the per-library mutex (tasks.rs:75-81) is not modelled;
  - the concurrency of `for_each_concurrent` is not modelled;
  - non-UTF-8 paths (tasks.rs:123-128) are not modelled;
  - the `UPDATE` statement quotes the path with `Debug` formatting (tasks.rs:154), so a path that needs escaping may not be marked as found. The model marks it found.
- ServerTasks.ParseDirSpec: the loop that follows a symbolic link (tasks.rs:22-25) is folded into the listing oracle. The oracle gives each entry's resolved path and type, or a failure.
- ServerTasks.WalkItems: the filesystem is assumed finite (`Closed`: every listed directory lies in a finite set). A cyclic or unbounded tree is not modelled.
- ServerPlugins.PluginDirs:
  - `EXE_NAME` is a parameter;
  - `std::env::current_exe` is a parameter, and so are the environment variables;
  - paths are joined textually, without normalisation.
- ServerMediaPlugin.TryFrom: opening a shared library and looking up its symbols are an oracle (`Library`). Unloading and the safety contract of `unsafe` calls are not modelled.
- MediaMusic.SupportedTypes and `MediaMusic.ExtractMetadata`: running `ffprobe` is an input (its standard output, or its exit and tags). JSON deserialisation of `ffprobe` output is folded into that input.
- PluglibMedia.MakePlugin: the macros' token-stream input is modelled as a declaration record, and a malformed declaration as a compile error value. `CARGO_PKG_VERSION` is a parameter.
- ServerProc.StaticConfig and `ServerProc.IncludeMigrations`:
  - reading `CARGO_MANIFEST_DIR`, `CARGO_PKG_VERSION` and the files is done through parameters;
  - a missing configuration file becomes a compile error, which is not modelled;
  - the expansion to a token stream is not modelled.
- ServerProc.SortMigrations: `sort_by_key` is a stable sort. The model states its result as the stable insertion sort `SortByNumber` and implements it as an in-place insertion sort. The standard library's merge sort itself is not modelled.
- ServerHttp.AddrText: an IPv6 address is kept as its text. The compressed hexadecimal rendering is not modelled.
- The router, the compression predicate and the trace layer's construction (http.rs:32-61, 90-134, 158-166) only wire library components together, and are not modelled.
- PluglibFfi.FfiStrNew: the documentation says an interior nul is an error, but the code keeps the text up to the first nul. The model follows the code, and `FfiStrInteriorNul` states the truncation.
- CommonLibrary.SplitJoinPaths: `join_paths` and `split_paths` are documented as inverses. They are inverses only for a non-empty list of paths without `:`; `SplitJoinPathsLosses` shows the two failures.
- PluglibVersion.Parse: the version is documented as SemVer, but the parser accepts up to three `u8` parts and ignores the rest. The model follows the code.
- ServerMediaPlugin.FieldValues: the indexing pass binds its values with `BINDING_FORMATTER`, an ISO formatter that renders a time on its own. If the `time` crate's default formatter does not, binding a time value panics partway through `load_media`; the pass does not model that panic.
- StdPath.JoinPath, `StdPath.FileName`, `StdPath.Parent`, `StdPath.FileStem` and `StdPath.Extension` work on the path's text. `std::path` also normalises components as it parses: it skips `.` components and repeated or trailing separators. That normalisation is not modelled.
- PluglibMedia.ToSql: the `ToSql` binding and the owned `Value` conversion disagree on dates, blobs and lists. `ToSqlAgainstToValue` states both, as written.
- Boxed slices and C strings that are nested inside descriptors and metadata values are represented by their contents, not by separate arrays. Aliasing between them is not modelled.
