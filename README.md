# Configuration schema store and language-file loader

A Dafny model of the configuration core of a Rust rewrite of DOSBox-X
(`src/misc/setup.rs` and `src/misc/msg.rs`):

- **Schema loading.** `Property::new` turns one schema entry into a typed
  property. It picks the value variant from the entry's `type`, starts the
  current value at the default, maps `changeable`, reads the `[min, max]`
  bounds of integer properties and resolves the suggested values, either
  inline or from the shared `value_list` table. `Section::new` builds a
  `PROPERTIES` or `LINES` section. `Config::load_json` appends the sections
  in the `sections` object's iteration order (key order for serde_json's
  default map) and indexes every property under its section name
  followed by its property name. `find_property` looks a property up under
  that key.
- **Config-file line classification.** `parse_section`, `parse_line` and
  the line loop of `parse` form a state machine whose one variable is the
  current section.
- **Message table.** `MessageMap` is a key-to-text table. `load_lang_file`
  reads entries of the form `:name`, body lines, `.`.

Files:

- `wrappers.dfy`: `Option`.
- `json.dfy`: the parsed schema document and the `serde_json` accessors the
  loader uses. Indexing a non-object or missing key gives `Null`. `as_i64`
  accepts only integers that fit in 64 signed bits.
- `text.dfy`: `str::get(0..1)` and `str::find`. Lines are sequences of
  Unicode scalar values. `get(0..1)` yields a character only when the first
  character is a single UTF-8 byte.
- `schema.dfy`: `Property::new` and `Section::new`. Each is a specification
  function (`PropertyOf`, `SectionOf`) plus a method that builds the result
  with the source's push loops and is proved equal to the function.
- `setup.dfy`: the `Config` class (`sections` and `propertyMap` fields,
  `LoadJson`, `FindProperty`, the line classifiers and the `Parse` loop)
  and the lemmas about loading.
- `messages.dfy`: the `MessageMap` class and the line-by-line loader, with
  the loader's state (`Reader`: the table plus the `name` and `message`
  accumulators) and its lemmas.

The three ways a constructor ends are one datatype, `Outcome`:

- `Ok`: a value.
- `Fail`: a `?` on a missing or mistyped field, which is `None` in the
  source.
- `Panic(reason)`: a `panic!`, an out-of-bounds `Vec` index, or a
  `value_list[name]` with an absent name.

The property index maps each key to a `Slot` (section number, property
number) instead of a borrowed reference. As written, the source's
reference-holding version does not compile: it uses `section` after moving
it into the vector (setup.rs:166-167). The model indexes the section it has
just appended.

The model follows the code as written, including where it surprises:

- A missing or non-string `changeable` field makes the property fail. It
  does not default to `Always`.
- Only `path`, `string`, `multi`, `int` and `bool` property types are
  accepted. `hex`, `double` and every other type panic.
- An `int` property needs a `values` array whose first two elements are
  64-bit integers. A missing array, or a non-integer in either place,
  fails. An empty array, or one whose only element is an integer, panics.
- The lookup key is the section name directly followed by the property
  name, with no separator. So section `ab` with property `c` and section
  `a` with property `bc` share the key `abc`, and the later one wins
  (`KeyCollision`).
- In the language file, any line that begins with `.` commits the entry,
  but only when text is pending. Any line that begins with `:` names an
  entry.
- A line whose first character is not ASCII is ignored by both line loops,
  because `get(0..1)` does not fall on a character boundary. In the config
  parser this changes nothing. In the language loader it means such a
  body line is dropped from its entry (`NonAsciiLineIgnored`,
  `NonAsciiBodyExample`).
- Text committed while no entry is named is stored under the empty name.
  This happens before the first `:` line and after a commit has reset the
  name (`UnnamedEntryExample`).
- A malformed section header is ignored silently. No diagnostic is
  produced.

## Model

| member | source | states |
|---|---|---|
| `Text.Head` | src/misc/msg.rs:37 | a line yields a first character exactly when it is non-empty and its first character is ASCII, and then it is that character |
| `Text.Find` | src/misc/setup.rs:202 | `None` exactly when the character does not occur; otherwise the position of its first occurrence |
| `Schema.ChangeableOf` | src/misc/setup.rs:70-75 | `OnlyAtStart` and `WhenIdle` exactly for those names; every other string, `"Always"` included, gives `Always` |
| `Schema.StringList` | src/misc/setup.rs:85-92 | specification of the `s.as_str()?` push loop: the strings in order, or `None` at the first non-string; `StringListSpec` states its meaning |
| `Schema.ValuesOf` | src/misc/setup.rs:83-96 | specification of the `values` match of a path-like property; `ValuesOfCases` states every case |
| `Schema.TypedOf` | src/misc/setup.rs:77-112 | specification of the `match prop_type`: the default, suggested values and bounds of each type, or the failure; `NewPropertyTypeMapping`, `NewPropertyBadDefaultFails`, `NewPropertySuggestedValues`, `IntBoundsErrors`, `NewIntProperty`, `NewBoolProperty` and `NewPropertyUnknownTypePanics` state its cases |
| `Schema.PropertyOf` | src/misc/setup.rs:58-124 | specification of `Property::new`, checking `type`, `help` and `changeable` in the source's order before the type-specific part; the `NewProperty*` lemmas state its promises |
| `Schema.StringListSpec` | src/misc/setup.rs:85-92 | copying a list of JSON values succeeds exactly when every element is a string, and then yields those strings in order |
| `Schema.PushStrings` | src/misc/setup.rs:85-92 | the push loop yields the same result as the string-list specification, stopping at the first non-string |
| `Schema.ValuesOfCases` | src/misc/setup.rs:83-96 | `null` gives no values; a bool, integer or object panics; an inline array gives its strings in order or fails on a non-string; a list name absent from `value_list` panics, a named non-array fails, and a named array gives its strings in order |
| `Schema.ResolveValues` | src/misc/setup.rs:83-96 | the `values` match as written yields the specified resolution |
| `Schema.NewProperty` | src/misc/setup.rs:58-124 | the constructor, with its early returns and loops, yields exactly the specified outcome, including the order in which failures and panics are detected |
| `Schema.NewPropertyStartsAtDefault` | src/misc/setup.rs:59-123 | a constructed property has its current value equal to its default, the entry's name and help text, and the `changeable` mapping of the entry's string |
| `Schema.NewPropertyRequiredFields` | src/misc/setup.rs:61-70 | a missing or non-string `type`, `help` or `changeable` gives `None` |
| `Schema.NewPropertyTypeMapping` | src/misc/setup.rs:77-112 | success implies the type is path, string, multi, int or bool; path-like types give a `Path` default with bounds 0, 0; `bool` gives a `Bool` default, no suggested values and bounds 0, 0; `int` gives an `Int` default with `min` and `max` the first two elements of a `values` array |
| `Schema.NewPropertyBadDefaultFails` | src/misc/setup.rs:79-106 | with the required fields present, a path-like type without a string default, an `int` type without a 64-bit integer default, or a `bool` type without a boolean default gives `None` |
| `Schema.NewPropertyUnknownTypePanics` | src/misc/setup.rs:111 | with the required fields present, any other type string panics with that type |
| `Schema.IntBoundsErrors` | src/misc/setup.rs:98-104 | for an `int` property with its other fields valid, a missing `values` array fails; an empty array, or one whose only element is an integer, panics on the index; a non-integer first or second element fails |
| `Schema.NewIntProperty` | src/misc/setup.rs:98-104 | an `int` entry with a 64-bit integer default and a `values` array whose first two elements are 64-bit integers builds, with that default as current and default value, no suggested values, and those two elements as `min` and `max` |
| `Schema.NewBoolProperty` | src/misc/setup.rs:105-110 | a `bool` entry with a boolean default builds, with that default as current and default value, no suggested values, and bounds 0 and 0 |
| `Schema.NewPropertySuggestedValues` | src/misc/setup.rs:78-97 | a path-like property succeeds exactly when its `values` field resolves, its suggested values are that resolution, and a failed resolution is the property's failure |
| `Schema.CheckValue` | src/misc/setup.rs:125-127 | every property is accepted |
| `Schema.Collect` | src/misc/setup.rs:139-141 | specification of a push loop whose elements may fail with `?` or panic: all values in order, or the first failure; `CollectSpec` states its meaning |
| `Schema.CollectSpec` | src/misc/setup.rs:139-141 | collecting outcomes succeeds exactly when all succeed, giving their values in order; otherwise it is the failure of the first that did not, with all before it successful |
| `Schema.PropertiesOf` | src/misc/setup.rs:137-142 | specification of the property push loop of `Section::new`: `Property::new` on each entry, collected; `NewPropertySection` states its meaning |
| `Schema.SectionOf` | src/misc/setup.rs:131-154 | specification of `Section::new`; `NewSectionCases` and `NewPropertySection` state its cases |
| `Schema.NewSectionCases` | src/misc/setup.rs:131-154 | a missing section type fails, `line` gives an empty `LINES` section, any other type but `property` panics with that type, and `property` without a `properties` object fails |
| `Schema.NewPropertySection` | src/misc/setup.rs:136-143 | a `property` section succeeds exactly when every entry gives a property, and then holds exactly one property per entry, in entry order; otherwise it fails as the first failing entry does |
| `Schema.NewSection` | src/misc/setup.rs:131-154 | the constructor and its push loop yield exactly the specified section outcome |
| `Setup.Config.constructor` | src/misc/setup.rs:185-188 | the store starts with no sections and an empty, trivially sound index |
| `Setup.Config.IndexProperties` | src/misc/setup.rs:169-173 | the insertion loop leaves the index with each property's key mapped to its slot, in order |
| `Setup.Config.LoadJson` | src/misc/setup.rs:158-179 | the new sections, index and reported outcome are those of the loading specification, and every key of the index still leads to a property stored under that key |
| `Setup.Config.FindProperty` | src/misc/setup.rs:191-195 | a property is found exactly when the concatenated key is indexed, and it is the property at the indexed slot, whose section name followed by its own name is that key |
| `Setup.Config.ParseProperty` | src/misc/setup.rs:197-199 | a property line never yields a section name |
| `Setup.Config.ParseSection` | src/misc/setup.rs:201-204 | a name is returned exactly when the line contains `]`, does not start with it, and starts with an ASCII character; the name is the text between the first character and the first `]`, and contains no `]` |
| `Setup.Config.ParseLine` | src/misc/setup.rs:206-221 | a line yields a section name exactly when it starts with `[` and contains `]`; comments, blank lines and other lines yield none; the name is what the header encloses |
| `Setup.Config.Parse` | src/misc/setup.rs:227-238 | the current section ends as `""` when no line is a well-formed header, and otherwise as the name in the last well-formed header |
| `Setup.IndexProps` | src/misc/setup.rs:169-173 | specification of the insertion loop: each property's key set to its slot, in order; `IndexPropsSlots` and `IndexPropsFinds` state its meaning |
| `Setup.IndexSection` | src/misc/setup.rs:167-176 | specification of the match on the appended section: a `PROPERTIES` section indexes its properties, a `LINES` section adds nothing; `IndexSectionFacts` states its meaning |
| `Setup.IndexPropsSlots` | src/misc/setup.rs:169-173 | inserting a section's properties keeps every old key, and every key of the result is either untouched or at a slot of that section whose section name followed by that property's name is the key |
| `Setup.IndexPropsFinds` | src/misc/setup.rs:169-173 | after the insertions, each property's key sits at a slot of that section at or after its own: a later property with the same name wins |
| `Setup.IndexPropsFacts` | src/misc/setup.rs:169-173 | indexing a stored section keeps the index sound, finds each of its properties under its key at its own or a later slot of that section, keeps every old key, and changes only keys of that section |
| `Setup.IndexSectionFacts` | src/misc/setup.rs:167-176 | indexing an appended section keeps the index sound over the longer section list; a `LINES` section adds no keys |
| `Setup.LoadFrom` | src/misc/setup.rs:164-177 | specification of the loop of `load_json`: append and index each built section, stopping at the first failure; `LoadFromSections`, `LoadFromStatus` and `LoadFromIndexed` state its meaning |
| `Setup.LoadJsonOf` | src/misc/setup.rs:158-178 | specification of `load_json`: fail unchanged without both tables, otherwise the loop over the section entries; `LoadJsonIndexes`, `LoadJsonSections`, `LoadJsonStatus` and `LoadJsonMalformed` state its meaning |
| `Setup.LoadFromSections` | src/misc/setup.rs:164-177 | loading keeps the old sections as a prefix and appends one built section per entry, in order, up to the first failing entry |
| `Setup.LoadFromStatus` | src/misc/setup.rs:164-166 | loading succeeds exactly when every entry builds, and then appends one section per entry; otherwise it reports the first entry's failure, right after the sections it kept |
| `Setup.LoadFromIndexed` | src/misc/setup.rs:164-177 | after loading, the index is sound, every loaded property is found under its key at the last loaded slot with that key, no key is lost, and a key changes only when a loaded section took it |
| `Setup.LoadJsonIndexes` | src/misc/setup.rs:158-178 | `load_json` keeps the old sections and leaves an index with the same guarantees |
| `Setup.LoadJsonSections` | src/misc/setup.rs:158-178 | for a document with both tables, the old sections stay and the new ones are, in the `sections` object's iteration order (key order for serde_json's default map), what `Section::new` builds from the section entries, up to the first that does not build |
| `Setup.LoadJsonStatus` | src/misc/setup.rs:158-178 | for a document with both tables, the load succeeds exactly when every section entry builds, and then adds one section per entry; otherwise it reports the failure of the first entry that does not build, right after the sections it kept |
| `Setup.LoadJsonMalformed` | src/misc/setup.rs:159-160 | a document without a `value_list` or `sections` object fails and changes nothing |
| `Setup.KeyCollision` | src/misc/setup.rs:170-172 | two properties of different sections can share a concatenated key, and the later one takes it |
| `Messages.MessageMap.constructor` | src/misc/msg.rs:14-18 | a new table is empty |
| `Messages.MessageMap.Set` | src/misc/msg.rs:20-22 | afterwards the name maps to the value, and every other key is unchanged |
| `Messages.MessageMap.Get` | src/misc/msg.rs:24-26 | a value is returned exactly when the key is present, and it is the stored text |
| `Messages.MessageMap.LoadLangFile` | src/misc/msg.rs:28-59 | the loop over the lines leaves the table the loading specification gives, starting from empty accumulators |
| `Messages.Step` | src/misc/msg.rs:37-54 | specification of one line of the loop; `StepCases` and `NonAsciiLineIgnored` state each branch |
| `Messages.Run` | src/misc/msg.rs:35-56 | specification of the loop over the lines, one step per line from the first; `RunAppend` states that it composes |
| `Messages.Load` | src/misc/msg.rs:28-59 | specification of `load_lang_file` on the lines of a file, starting with empty accumulators; `LoadKeepsOtherKeys` and `NonAsciiBodyExample` state what it stores |
| `Messages.StepCases` | src/misc/msg.rs:37-54 | a `:` line sets the pending name and keeps the pending text; a `.` line with pending text stores it under the pending name and clears both; a `.` line without pending text changes nothing, name included; a body line appends itself and a newline; an empty line changes nothing |
| `Messages.NonAsciiLineIgnored` | src/misc/msg.rs:37-49 | a line whose first character is not ASCII changes nothing |
| `Messages.RunAppend` | src/misc/msg.rs:35-56 | reading two runs of lines one after the other is reading their concatenation |
| `Messages.BodyAccumulates` | src/misc/msg.rs:50-53 | body lines only append to the pending text, each followed by a newline |
| `Messages.LoadEntry` | src/misc/msg.rs:35-56 | `:n`, body lines L1..Lk with k at least 1, then `.`, read with no pending text, stores L1+"\n"+...+Lk+"\n" under `n` and clears both accumulators |
| `Messages.EmptyEntryStoresNothing` | src/misc/msg.rs:42-48 | `:n` followed directly by `.`, read with no pending text, stores nothing and leaves `n` pending |
| `Messages.LastEntryWins` | src/misc/msg.rs:44 | for two back-to-back entries with the same name, read with no text pending, the table ends with the later entry's text |
| `Messages.LastEntryStays` | src/misc/msg.rs:35-56 | anywhere in a file, once no text is pending, an entry for a non-empty name with at least one body line keeps its text to the end unless a later `:` line names it again, whatever earlier entries stored under that name |
| `Messages.TrailingTextNotStored` | src/misc/msg.rs:35-56 | lines without a `.` line store nothing, so text pending at the end of the file is lost |
| `Messages.UntouchedKeys` | src/misc/msg.rs:38-47 | the pending name is always the initial one, the empty one, or one a `:` line named; a non-empty key that no `:` line names and that is not pending at the start keeps its value or its absence |
| `Messages.LoadKeepsOtherKeys` | src/misc/msg.rs:35-56 | loading a file keeps the value, or absence, of every non-empty key that no `:` line of the file names |
| `Messages.NonAsciiBodyExample` | src/misc/msg.rs:37-49 | `:greeting`, `Äpfel`, `.` stores nothing: the body line is dropped and the entry's text stays empty |
| `Messages.UnnamedEntryExample` | src/misc/msg.rs:32-53 | `hello`, `.` at the start of a file stores `hello` and a newline under the empty name, because the name starts empty |

## Left out

- Reading files: `File::open` of the schema and `serde_json::from_reader`
  (setup.rs:181-189), and the `BufReader` line reading in `parse` and
  `load_lang_file`. The schema is given as a JSON value and each file as a
  list of lines. Lines that fail to read are skipped by the language
  loader and abort `parse`; read errors are not modelled.
- `load_json_file` (msg.rs:61-76): it only prints lines.
- `println!` and `log::` calls: they only log.
- `src/misc/context.rs` and `src/main.rs`: command-line parsing, log
  levels and thin wrappers over types and methods the shown code does not
  define (`misc::config::Config`, `Messages`, `load`, `save`). Saving a
  language file does not exist in the source, so there is no save/load
  round trip to model.
- `key=value` lines: `parse_property` is a stub returning `None`, so no
  value is ever coerced or written. The `min`/`max` bounds and suggested
  values are stored but never enforced.
- Setup.Config.Parse: returns the final current section. The source
  discards it and returns `Ok(())`; returning it makes the state machine
  observable.
- Schema.CheckValue: states only the source's constant `true`. There is no
  validation to model.
- `PropertyValue::Double`: floating point, and never produced by
  `Property::new`. Its payload is kept as the raw 64 bits.
- JSON numbers other than integers: floats and integers above the 64-bit
  signed range are outside the document model, except that `as_i64` gives
  `None` for integers out of range.
- JSON object order and duplicate keys: an object is its entries in the
  map's iteration order. Lookup takes the first entry with a key. A parsed
  `serde_json` map has no duplicate keys, and by default it iterates in key
  order.
- A panic is an outcome value in the model, not an abort. The model keeps
  the sections appended before the panicking entry, as the store holds
  them at that point.
- Rust lifetimes and borrowed `&Property` references: the index holds slot
  positions instead.
