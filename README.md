# go-human encoder, modelled in Dafny

go-human turns a Go struct into indented, YAML-like text. Each exported struct field prints as `name: value`. Nested structs, slices and maps print on the following lines, indented by `indent * level` spaces. Slice elements and map keys carry a list symbol chosen by depth. The encoder writes into a flushable buffer and copies it to the destination only when the whole value encoded without error.

The model keeps that structure:

- `Values` replaces Go reflection with an inductive `Value` type. A value is a scalar, struct, slice, map, pointer, TextMarshaler or nil interface. Whatever Go's `fmt` would print is carried as pre-rendered text.
- `Util` is util.go's zero-value test, `IsNilOrEmpty`, over that type.
- `Tags` models tag.go: `ParseTag`, `parseTagFromStructField` and the `InvalidTag` error with its accessors.
- `Options` models option.go and errors.go: the settings, the three option kinds, the defaults, and the error-collecting option loop as the function `ApplyOptions`.
- `Buffer` is the `FlushableBuffer` class of flushable_buffer.go, with fields `buf` and `dest`, plus a flag saying whether the destination refuses writes.
- `Sorting` is the string order `sort.Strings` uses, with a sort function that stands for it.
- `Render` states what each encode method writes and returns, as functions that follow the source's loops:
  - `StructPrefix`: the struct's fields;
  - `ListPrefix`: a slice's elements;
  - `MapPrefix`: a map's sorted keys;
  - `ValueSpec` and `KindSpec`: the kind switch of `encodeValue`;
  - `Document`: what `Encode` buffers.
- `RenderProps` proves what those functions mean:
  - which errors are returned, and the fact that a tag error never stops the struct loop;
  - fail-fast slices and maps;
  - output equal to the rendering of the printed fields in declaration order;
  - map output independent of the order in which the keys are enumerated;
  - the cycling of list symbols and the indentation of a label.
- `Encoding` is the `Encoder` class of encoder.go. Its methods `Encode`, `EncodeStruct`, `EncodeSlice`, `EncodeMap`, `EncodeValue`, `Apply` and the function `NewEncoder` are written with the source's loops and mutable state. Each is proved to produce exactly what the `Render` and `Options` functions describe. `Encode` is all-or-nothing: the destination receives the whole document or nothing, and the buffer is empty afterwards.
- `Scenarios` restates the expected outputs of the repository's tests and examples as lemmas about the model.

Where the code and its documentation disagree, the model follows the code:

- Embedded (anonymous) fields are skipped, not flattened (encoder.go:39-42).
- TextMarshaler text is written directly after the colon with no space (encoder.go:137; example_test.go:253). example_simple_test.go:222 expects `ip: 127.0.0.1`, which the code does not produce.
- The root value goes straight to `encodeStruct` without pointer unwrapping (encoder.go:26). `Encode` therefore requires a struct root; Go would panic on anything else.
- Map keys whose fmt text coincides collapse into one table entry, and the value printed for them is that of the key `MapKeys` lists last (encoder.go:105-113). Go does not fix that order, so such a map's output can differ between runs; `DuplicateKeyOrderMatters` exhibits it.

## Model

| member | source | states |
|---|---|---|
| Tags.InvalidTag.Error | tag.go:18-20 | The message is exactly `Invalid tag: '`, then the raw tag, then `'` |
| Tags.InvalidTag.Tag | tag.go:23-25 | Tag() returns the very tag the error was built from |
| Tags.NewErrorInvalidTag | tag.go:27-31 | The error built is an InvalidTag whose Tag() is the given tag |
| Tags.IsInvalidTag | tag.go:37-40 | True exactly for errors built by newErrorInvalidTag; the InvalidTag is returned iff the flag is true, and it rebuilds the same error |
| Tags.ErrorDeterminesTag | tag.go:18-20 | Two InvalidTag errors with the same message carry the same tag |
| Tags.TrimSuffix | tag.go:63-67 | With the suffix present, the result followed by the suffix is the input; otherwise the input is unchanged |
| Tags.ParseTag | tag.go:54-78 | `-` gives name `-`, no omit flag and no error. Otherwise omitEmpty holds iff the tag ends in `,omitempty`, and the name is the tag with exactly that suffix removed. There is an error iff the name has a character other than `_`, a letter or a digit, and that error carries the unstripped tag |
| Tags.ParseFormatTag | tag.go:54-78 | Parsing a well-formed `name[,omitempty]` gives back that name and flag without error (parse/format round trip) |
| Tags.ParseTagFromStructField | tag.go:43-50 | A non-empty name parsed from the tag value is kept; an empty one is replaced by the Go name, so a non-empty Go name never yields an empty name. The omit flag and the error are exactly those of ParseTag on the tag value |
| Tags.EmptyTagUsesGoName | tag.go:43-50 | The empty tag and `,omitempty` parse without error to the Go field name, with the omit flag set only for the latter |
| Util.NonNilPointerNotEmpty | util.go:9-17 | A non-nil pointer is never nil-or-empty, whatever it points to |
| Util.NonEmptyFieldMakesStructNonEmpty | util.go:9-17 | A struct with a non-empty field is not empty, and the struct without fields is empty |
| Options.ApplyOption | option.go:22-49 | An option errs iff its argument is the empty tag name or the empty symbol list, and it then leaves the settings unchanged. Each error names its option. Each option changes only its own setting and, when accepted, sets it to its argument |
| Options.ApplyOptionsErrors | encoder.go:182-186 | The option loop returns one error per refused option, in option order, and no errors iff no option refuses |
| Options.ApplyOptionsKeepsValid | option.go:22-41 | Valid settings (non-empty tag name and symbol list) stay valid under any options |
| Options.ApplyOptionsSettingsConcat | encoder.go:182-186 | Applying `a + b` gives the settings of applying `a`, then `b` |
| Options.ApplyOptionsConcat | encoder.go:182-186 | Applying `a + b` gives the settings of applying `a`, then `b`, and the errors of `a` followed by the errors of `b` |
| Options.RejectedErrorsConcat | encoder.go:182-186 | The errors refused options produce on `a + b` are those of `a` followed by those of `b` |
| Options.DefaultsOnly | option.go:3-19 | The defaults alone give tag `human`, symbols `["*"]` and indent 2, without errors |
| Options.ConfiguredEncoderIsValid | encoder.go:176-192 | Defaults followed by any user options give a non-empty tag name and a non-empty symbol list, which keeps the `%` of encodeSlice and encodeMap defined |
| Buffer.FlushableBuffer.constructor | flushable_buffer.go:26-31 | A new buffer is empty and bound to the given destination |
| Buffer.FlushableBuffer.Write | flushable_buffer.go:14-17 | A write appends to the buffer and touches nothing else |
| Buffer.FlushableBuffer.Flush | flushable_buffer.go:21-23 | Flush appends exactly the buffered text to the destination, reports its length, and keeps the buffer. A failing destination takes nothing and the error is reported |
| Buffer.FlushableBuffer.Reset | flushable_buffer.go:14-17 | Reset empties the buffer and leaves the destination alone |
| Sorting.LeReflexive | encoder.go:115 | Every string is <= itself |
| Sorting.LeTotal | encoder.go:115 | Any two strings are comparable |
| Sorting.LeAntisymmetric | encoder.go:115 | Strings <= each other are equal |
| Sorting.LeTransitive | encoder.go:115 | The order is transitive |
| Sorting.Insert | encoder.go:115 | Inserting into a sorted sequence keeps it sorted and adds exactly one occurrence of the element |
| Sorting.SortStrings | encoder.go:115 | sort.Strings: the result is sorted and a permutation of the input |
| Sorting.SortedUnique | encoder.go:115 | Only one sorted arrangement exists of a multiset of keys, so the printed key order is determined by the keys alone |
| Sorting.LeCommonPrefix | encoder.go:115 | Prefixing two ordered strings with the same text keeps them ordered |
| Util.IsNilOrEmpty | util.go:9-17 | Definition: the nil interface, a nil pointer, a struct whose fields are all empty, or a scalar, slice, map or marshaler equal to its zero value |
| Options.ApplyOptions | encoder.go:182-186 | Definition: the option loop, each option applied to the settings the previous ones left, each refusal appended to the errors |
| Render.PlanField | encoder.go:39-66 | Definition: an embedded or unexported field is skipped; a bad tag is a tag failure; a nil interface, the name `-` or omitempty on an empty value is skipped; otherwise the field is printed under its parsed name |
| Render.Label | encoder.go:70-75 | Definition: in a list, a space, the name and `:`; otherwise `indent * level` spaces, the name and `:` |
| Render.ValueSpec | encoder.go:128-148 | Definition: a marshaler prints its text and a newline and reports its error; a nil pointer prints nothing; anything else goes to the kind switch after one pointer unwrapping |
| Render.KindSpec | encoder.go:149-172 | Definition: a struct prints a newline (unless in a list) and its fields one level down; a slice or map a newline and its elements or sorted keys one level down; any other value a space, its fmt text and a newline |
| Render.FieldDelta | encoder.go:38-78 | Definition: one field loop iteration, which writes nothing for a skipped field, adds the tag error for a bad tag, and otherwise writes the label and the value, clears the list flag and files the value's errors under the name |
| Render.StructPrefix | encoder.go:37-79 | Definition: the field loop after n fields, which never stops early |
| Render.ListPrefix | encoder.go:84-97 | Definition: the slice loop after n elements, each after `indent + bullet`, stopping at the first failing element |
| Render.MapPrefix | encoder.go:99-126 | Definition: the sorted-key loop after n keys, each key heading followed by the value its key string names, stopping at the first failing value |
| Render.Document | encoder.go:24-33 | Definition: what Encode buffers, the root struct's fields at level 0, and the errors they collect |
| Render.Bullet | encoder.go:86 | The symbol of a level is one of the configured symbols |
| Render.LastIndex | encoder.go:105-113 | The entry whose value the key string keeps is the last one with that key string |
| Render.SortedKeys | encoder.go:115 | The key strings in ascending order, one per map entry, as a permutation of the key strings |
| Render.SortedValue | encoder.go:117-119 | The value printed for the n-th sorted key is one of the map's values |
| Render.Deref | encoder.go:142-147 | Unwrapping is the value itself or a strictly smaller part of it |
| Render.ListPrefixStuck | encoder.go:92-94 | Once a slice element failed, later elements change neither the text nor the errors |
| Render.MapPrefixStuck | encoder.go:121-123 | Once a map value failed, later keys change neither the text nor the errors |
| Render.MapPrefixStep | encoder.go:117-124 | One more key appends `indent + bullet + " " + key + ":"` and the text of its value, and returns its errors |
| RenderProps.ValueErrors | encoder.go:128-173 | The errors of encodeValue equal an independent definition of the errors in the value tree |
| RenderProps.StructErrors | encoder.go:35-82 | The errors of the field loop after n fields are the errors of those fields, in order |
| RenderProps.FieldErrors | encoder.go:52-78 | The errors one field adds: its tag error, or its value's errors under its name, or none |
| RenderProps.ListErrors | encoder.go:88-95 | The errors of the slice loop are the first failing element's errors |
| RenderProps.MapErrors | encoder.go:117-124 | The errors of the map loop are the first failing key's errors, in sorted order |
| RenderProps.DocumentErrors | encoder.go:24-33 | Encode's errors are the errors of all root fields, in declaration order |
| RenderProps.TagErrorReported | encoder.go:52-57 | A field whose tag does not parse contributes its InvalidTag error to the result |
| RenderProps.FieldErrorIn | encoder.go:37-79 | An error of any field is among the struct's errors; a failing field does not stop the loop |
| RenderProps.NestedErrorsPrefixed | encoder.go:76-78 | Every error inside a printed field's value reaches the document, prefixed by the field's name |
| RenderProps.ListFailFast | encoder.go:88-95 | A failing slice stops at its first failing element: all elements before it succeed, nothing after it is written, and its errors are that element's |
| RenderProps.ListPrefixClean | encoder.go:88-95 | A slice without errors has no failing element |
| RenderProps.FieldText | encoder.go:68-78 | A field writes its label and value iff it is printed, and it clears the in-list flag iff it writes |
| RenderProps.StructText | encoder.go:37-79 | After n fields the text is the rendering of the printed fields among them, in declaration order. Only the first printed field of a struct in a list gets the short label |
| RenderProps.StructRendersPrintedFields | encoder.go:37-79 | A struct's text is exactly its printed fields rendered in declaration order |
| RenderProps.ListText | encoder.go:84-97 | A slice without errors writes every element, in index order, each after `indent + bullet` |
| RenderProps.MapText | encoder.go:115-124 | A map without errors writes every sorted key's heading and value |
| RenderProps.MapOrderIrrelevant | encoder.go:103-124 | Two maps with the same entries and pairwise distinct key strings print the same text and errors, whatever order reflection lists them in |
| RenderProps.DuplicateKeyOrderMatters | encoder.go:105-119 | The distinct-key condition is needed: two entries whose keys print alike, listed in the two possible orders, print different text, because the last-listed value wins |
| RenderProps.DuplicateKeyPrints | encoder.go:105-119 | Such a map prints its shared key with the value of the entry listed last |
| RenderProps.BulletsInOrder | encoder.go:86 | Levels 1 to the number of symbols use the symbols in order |
| RenderProps.LabelIndent | encoder.go:74 | A label outside a list is `indent * level` spaces, then the name, then `:` |
| Encoding.Encoder.constructor | encoder.go:177-179 | A new encoder holds the given stream and Go's zero settings |
| Encoding.Encoder.Apply | option.go:22-49 | Running an option on the encoder's fields has the effect and the error that ApplyOption describes, and keeps the stream |
| Encoding.Encoder.Encode | encoder.go:24-33 | All or nothing. With field errors, they are returned and nothing reaches the destination. With a refusing destination, its error is returned and nothing is added. Otherwise the whole document is appended. The buffer is empty afterwards in every case |
| Encoding.Encoder.EncodeStruct | encoder.go:35-82 | Appends exactly StructPrefix over all fields and returns its errors |
| Encoding.Encoder.EncodeField | encoder.go:38-78 | One loop iteration: appends the field's text, returns the new in-list flag and the field's errors |
| Encoding.Encoder.EncodeSlice | encoder.go:84-97 | Appends exactly ListPrefix over all elements and returns its errors |
| Encoding.Encoder.EncodeMap | encoder.go:99-126 | Appends exactly MapPrefix over all keys in sorted order and returns its errors |
| Encoding.Encoder.EncodeSortedKeys | encoder.go:117-125 | The sorted-key loop up to the first error appends exactly MapPrefix over all keys |
| Encoding.Encoder.EncodeMapKey | encoder.go:118-123 | One key appends exactly the next MapPrefix step |
| Encoding.Encoder.EncodeValue | encoder.go:128-173 | Appends exactly ValueSpec's text and returns its errors |
| Encoding.Encoder.EncodeKind | encoder.go:149-172 | The kind switch appends exactly KindSpec's text and returns its errors |
| Encoding.LookupSortedKey | encoder.go:118 | The lookup table finds, for each sorted key, the entry whose value SortedValue names |
| Encoding.IndexMapKeys | encoder.go:105-113 | The first loop of encodeMap builds the key strings in MapKeys order and a table from each key string to its last entry |
| Encoding.NewEncoder | encoder.go:176-192 | Errors are those of the defaults then the user options, in order. The encoder is nil iff there was an error. Otherwise it is fresh and valid, has the resulting settings, and writes to the given destination |
| Scenarios.CustomOptionsNoError | encoder_test.go:20-30 | Symbols `+`,`-`, tag `test` and indent 4 are accepted and set |
| Scenarios.CustomOptionsError | encoder_test.go:32-43 | Empty symbols and an empty tag name give exactly ErrListSymbolsEmpty, then ErrInvalidTagName |
| Scenarios.ParseSimpleTag | tag_test.go:27-32 | `test` parses to name `test`, no omit flag, no error |
| Scenarios.ParseBadTag | tag_test.go:34-40 | `&` fails with an InvalidTag whose Tag() is `&` |
| Scenarios.TestingErrorMessage | tag_test.go:8-25 | newErrorInvalidTag("testing error") is recognised, keeps its tag and has message `Invalid tag: 'testing error'` |
| Scenarios.AlternatingBullets | example_test.go:205-234 | With symbols `+`,`-`, levels 1, 2, 3 use `+`, `-`, `+` |
| Scenarios.UntaggedPrinted | tag.go:43-50 | An exported field without a tag prints under its Go name |
| Scenarios.RenamedPrinted | encoder.go:52-75 | A valid tag renames a printed field |
| Scenarios.IgnoredSkipped | encoder.go:60 | The tag `-` skips the field |
| Scenarios.EmptyOmitted | encoder.go:60 | `,omitempty` skips an empty value |
| Scenarios.ScalarLine | encoder.go:70-76 | A printed scalar field writes its label, a space, its text and a newline |
| Scenarios.SkippedField | encoder.go:60-65 | A skipped field changes nothing in the struct loop |
| Scenarios.StructLine | encoder.go:151-156 | A printed nested struct writes its label, a newline and its fields one level deeper |
| Scenarios.RenamedScalarLine | encoder.go:52-76 | A scalar field renamed by its tag prints under the tag's name |
| Scenarios.ChildNameLine | example_test.go:64-89 | The nested struct's only printed field is `  Name: theChild` |
| Scenarios.OmitEmptyChildText | example_test.go:64-89 | The nested struct of the omitempty example prints one line, without errors |
| Scenarios.Var1Line | example_test.go:64-89 | `Var1: v1` |
| Scenarios.Var2Line | example_test.go:64-89 | The field tagged `variable_2` prints as `variable_2: 2` |
| Scenarios.ChildLines | example_test.go:64-89 | `Child:` followed by the nested struct's line |
| Scenarios.SimpleOmitEmpty | example_test.go:64-89 | The whole omitempty example prints its four documented lines without errors |
| Scenarios.TagFailPlan | example_test.go:257-277 | The tag `&§/$` makes the field a tag failure carrying that tag |
| Scenarios.TagFailDocument | example_test.go:257-277 | The tag-error example writes nothing and returns exactly one InvalidTag error |
| Scenarios.MarshalerLine | encoder.go:131-138 | A printed TextMarshaler field writes its label, the marshaled text with no space, and a newline |
| Scenarios.TextMarshalerDocument | example_test.go:239-255 | The textMarshaler example prints `Ip:[49 50 55 46 48 46 48 46 49]` |
| Scenarios.OnlyTextPrinted | example_test.go:279-317 | A skipped field followed by `Text` prints only `Text: test` |
| Scenarios.AnonymousFieldDocument | example_test.go:279-297 | An embedded field is skipped: the output is `Text: test` |
| Scenarios.UnexportedFieldDocument | example_test.go:299-317 | An unexported field is skipped: the output is `Text: test` |
| Scenarios.NonEmptyKept | encoder.go:60 | `,omitempty` keeps a non-empty value under its name |
| Scenarios.NilPointerLine | encoder.go:143-147 | A printed nil-pointer field writes its label and nothing else, not even a line break |
| Scenarios.NilPointerDocument | encoder.go:70-78 | A nil pointer followed by `Text` prints the single line `Next:Text: test` |
| Scenarios.ListLine | encoder.go:157-160 | A printed slice field writes its label, a newline and its elements one level deeper; their errors are filed under its name |
| Scenarios.MapLine | encoder.go:161-164 | A printed map field writes its label, a newline and its keys one level deeper; their errors are filed under its name |
| Scenarios.ScalarItem | encoder.go:166-169 | A scalar slice element writes a space, its text and a newline after the bullet |
| Scenarios.ListedStruct | encoder.go:151-156 | A struct slice element writes no line break; its fields follow one level deeper, in list mode |
| Scenarios.TwoItems | encoder.go:88-95 | A two-element slice without errors writes each element after the level's bullet, in index order |
| Scenarios.TwoKeys | encoder.go:117-124 | A two-key map without errors writes each sorted key's heading and then its value |
| Scenarios.SortedPair | encoder.go:115 | A map listing its two keys in descending order prints them in ascending order |
| Scenarios.FullPersonItem | example_test.go:193-194 | A listed SimpleChild with a non-zero Property2 writes ` Name: <name>` and then `    Property2: <value>`; Property1 is skipped |
| Scenarios.EmptyPropertyItem | example_test.go:195-196 | A listed SimpleChild with a zero Property2 writes only ` Name: <name>` |
| Scenarios.IntSliceLines | example_test.go:187-192 | `[]int{1, 2, 3, 4, 5}` prints as `  * 1` to `  * 5`, one per line |
| Scenarios.StructSliceLines | example_test.go:193-196 | The struct slice prints `  * Name: Person1`, `    Property2: 4.5`, `  * Name: Person2` |
| Scenarios.SimpleSliceDocument | example_test.go:166-202 | The simpleSlice example prints its documented output without errors |
| Scenarios.StringMapLines | example_test.go:156-159 | The string-keyed map listed as `Two`, `One` prints `One` before `Two`, each followed by its struct |
| Scenarios.StringMapEitherOrder | example_test.go:137-159 | Listed as `One`, `Two` instead, the map prints the same lines |
| Scenarios.StructMapLines | example_test.go:160-162 | The struct-keyed map prints `{Person1 0 4.5}: 1` before `{Person2 0 0}: 2` |
| Scenarios.SimpleMapDocument | example_test.go:122-163 | The simpleMap example prints its documented output, keys in sorted order, without errors |

## Left out

- Reflection is replaced by the `Value` datatype. A field's tag lookup is a map that yields `""` for a missing key.
- Go's `fmt` formatting of scalars, map keys, pointers and marshaled byte slices (Go prints those as `[49 50 ...]`) is carried as pre-rendered text in the value.
- Floating-point values appear only as opaque text.
- `unicode.IsUpper`, `IsLetter` and `IsDigit` are modelled by their ASCII subsets. Non-ASCII letters and digits are rejected in tag names, and non-ASCII upper-case field names count as unexported.
- `uint` arithmetic is not modelled. The model assumes `indent * level` fits in an int; otherwise Go wraps it, or panics in `strings.Repeat` when the converted product is negative. `indentLevel - 1` is only taken at level >= 1, which every caller guarantees.
- `go-multierror` and `go-errortree` are modelled as an ordered list of (path, cause) entries. Their message text is left out.
- Short writes are left out. A refusing destination takes nothing.
- Cyclic values are excluded by construction of the inductive datatype.
- An empty Go field name is treated as unexported. Go would panic indexing its first rune; the compiler never produces such a field.
- Interface-typed slots holding a non-nil value are modelled as scalars carrying fmt's text, which is how the default branch prints them, except that a held TextMarshaler is a `Marshaler` value (encoder.go:131).
- Util.IsNilOrEmpty: Go compares with the type's zero value. The model reads an `isZero` flag for scalars, slices, maps and marshalers, and computes it for structs (all fields empty) and pointers (nil). That the empty string is empty and other strings are not is therefore a property of the flag, not proved.
- A nil pointer whose type implements TextMarshaler: Go would call MarshalText on it, but the model writes nothing, as for any nil pointer.
- Characters are modelled as Dafny chars, not bytes. Byte-wise `sort.Strings` agrees with the character order for UTF-8 text.
- `sort.Strings` sorts in place. The model sorts by the value function `SortStrings`, and the method works on its result.
- The sentinel errors of errors.go are the two constructors of `ConfigError`.
- Encoding.Encoder.Encode: requires a struct root; Go panics on any other root (encoder.go:26, 36).
