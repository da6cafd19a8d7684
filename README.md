# ObjectiveKit core in Dafny

ObjectiveKit is a Swift layer over the Objective-C runtime. Almost all of it forwards to the runtime's C functions. The logic it owns is modelled here:

- **The type-encoding classifier** (`Sources/ObjectiveKit/ObjCType.swift`, module `ObjCTypes`). A runtime type-encoding string is decoded into an `ObjCType`. `init(_:)` looks the string up in the single-character table `_reverseTypes`. `init(typeString:)` uses the same table first. Otherwise it scans the ordered struct-prefix list `_structTypes` and takes the first prefix that starts the string. If neither matches, the result is `unknown`. A struct kind is a `custom` value whose payload is its own prefix. `description` maps a case back to its code.
- **The flat classifier and the runtime-class lifecycle** (`Sources/ObjectiveKit/RuntimeClass.swift`, module `RuntimeClasses`). This file declares a second `ObjCType`. It has no `custom` case: every struct kind is a case of its own. Its `init(typeString:)` follows the same rule with the `_types` table. The file also holds `ObjectiveType.encoding()` and the `RuntimeClass` object. That object is a two-state machine on its `registered` flag: ivars are added while unregistered, `register()` registers the class pair once, and `allocate()` registers first.
- **The shared scan** (module `PrefixScan`). Both `init(typeString:)` initialisers run the same `for`/`break` loop over their struct lists. It is modelled once, as the generic method `Scan`. That method is proved against the first-match index `MatchIndex`.
- **Agreement of the two enums** (module `KindAgreement`). Both sources declare a `public enum ObjCType`, so the two files would not compile together. Here they are two datatypes in two modules. `ToFlat` pairs their cases by name: each plain case with the flat case of the same name, each struct constant of ObjCType.swift with the flat struct case of the same name, and every other custom value with `unknown`. It is written from the case names alone, not from either file's tables. `SameKind` proves that, for every string, `ToFlat` carries the first classifier's result onto the flat classifier's result.

The Objective-C runtime is abstract in this model:
- A class pair is the value `ClassPair(superclass, name)`.
- The ivars that `class_addIvar` records are the field `ivars`, a sequence of `(name, encoding)` pairs. `class_addIvar` refuses a name the class already has, and `addIvar` discards the refusal, so a repeated name leaves `ivars` unchanged and no name occurs twice.
- The ghost field `registrations` counts the calls of `objc_registerClassPair`.
- An allocated instance is the value `Instance(cls)`.

The UUID text that names a class is a constructor parameter.

Where the code and Apple's "Type Encodings" table differ, the model follows the code:
- The selector code is `","` in both tables. Apple's table uses `":"`.
- The selector's `description` is `""`. So the selector is the one table entry whose round trip through `description` fails (`TableRoundTrip`).
- `addIvar` guards its precondition with Swift's `assert`, which only stops debug builds. It is modelled as `requires !registered`.

## Model

| member | source | states |
|---|---|---|
| PrefixScan.MatchIndex | Sources/ObjectiveKit/ObjCType.swift:111-116 | the scan stops at the first entry whose prefix starts the string: that entry matches and no earlier one does; it stops past the end when none matches |
| PrefixScan.Scan | Sources/ObjectiveKit/ObjCType.swift:107-116 | the `for`/`break` loop from the initial value yields the value of the first matching entry, or the initial value when none matches |
| PrefixScan.FirstMatchIsFirst | Sources/ObjectiveKit/ObjCType.swift:111-116 | some entry matches iff the scan stops inside the list; the result is then the first matching entry's value, and otherwise the default |
| PrefixScan.MatchIndexSameKeys | Sources/ObjectiveKit/RuntimeClass.swift:136-143 | two lists with the same prefixes in the same order stop at the same index, whatever their values |
| PrefixScan.KeyFindsOwnEntry | Sources/ObjectiveKit/ObjCType.swift:75-90 | when no prefix is a prefix of a later one, every prefix, as input, finds its own entry |
| ObjCTypes.FromRaw | Sources/ObjectiveKit/ObjCType.swift:42-44 | `init(_:)` never yields a custom value, and yields something other than `unknown` only for a table key |
| ObjCTypes.Description | Sources/ObjectiveKit/ObjCType.swift:48-71 | a custom value describes as its payload verbatim, the selector as "", and every other case as exactly one character |
| ObjCTypes.FromTypeString | Sources/ObjectiveKit/ObjCType.swift:106-119 | `init(typeString:)` computes the table-first, first-prefix-second, else-unknown rule |
| ObjCTypes.StructEntriesCarryTheirPrefix | Sources/ObjectiveKit/ObjCType.swift:75-104 | each struct entry's kind is `custom` of that entry's own prefix |
| ObjCTypes.TableKeysAreSingleCharacters | Sources/ObjectiveKit/ObjCType.swift:20-40 | every table key is one character; only "?" maps to unknown and only "," to selector |
| ObjCTypes.ExactLookupOnly | Sources/ObjectiveKit/ObjCType.swift:42-44 | `init(_:)` is exact lookup: never custom, not unknown iff the string is a key other than "?", and unknown on every string a struct prefix starts |
| ObjCTypes.PointEncodingExample | Sources/ObjectiveKit/ObjCType.swift:42-44 | "{CGPoint=dd}" is unknown to `init(_:)` and a point to `init(typeString:)` |
| ObjCTypes.TableRoundTrip | Sources/ObjectiveKit/ObjCType.swift:20-70 | every table key decodes to a case that describes as the key again, except ",", whose selector describes as "" |
| ObjCTypes.DescriptionDecodes | Sources/ObjectiveKit/ObjCType.swift:20-70 | every non-custom, non-selector case describes as a table key, and that key decodes to the case |
| ObjCTypes.DescriptionInjective | Sources/ObjectiveKit/ObjCType.swift:49-70 | distinct non-custom, non-selector cases have distinct descriptions |
| ObjCTypes.ClassifyRefinesFromRaw | Sources/ObjectiveKit/ObjCType.swift:106-119 | the table takes precedence: on a key both initialisers agree and no custom value results; they differ only where `init(_:)` says unknown and a struct prefix yields a custom kind |
| ObjCTypes.StructScan | Sources/ObjectiveKit/ObjCType.swift:106-119 | off the table, the result is custom iff a struct prefix matches, it is then the kind of the first matching prefix in list order, and unknown otherwise |
| ObjCTypes.ClassifyUnknownIff | Sources/ObjectiveKit/ObjCType.swift:106-119 | `init(typeString:)` yields unknown exactly on "?" and on strings outside the table that no struct prefix starts |
| ObjCTypes.CustomIsPrefix | Sources/ObjectiveKit/ObjCType.swift:91-119 | a decoded custom kind's payload, and so its description, is a prefix of the input |
| ObjCTypes.EarlierKeyNotPrefix | Sources/ObjectiveKit/ObjCType.swift:75-90 | no struct prefix is a prefix of a later one in the list |
| ObjCTypes.StructKeysUnshadowed | Sources/ObjectiveKit/ObjCType.swift:75-90 | the whole struct list is free of shadowing: specific structs come before their families |
| ObjCTypes.EveryStructKindReachable | Sources/ObjectiveKit/ObjCType.swift:75-119 | each struct prefix decodes to its own entry's kind, so no entry is hidden by an earlier one |
| ObjCTypes.SpecificBeforeFamily | Sources/ObjectiveKit/ObjCType.swift:75-116 | every string starting "{CGPoint=" is a point, although the "{CG" family also matches it |
| ObjCTypes.FamilyCatchesOtherStructs | Sources/ObjectiveKit/ObjCType.swift:75-116 | "{CGFoo}", a CG struct with no entry of its own, falls to the "{CG" family |
| RuntimeClasses.Encoding | Sources/ObjectiveKit/RuntimeClass.swift:74-83 | every ivar encoding is one character, and it is "@" exactly for strings and objects |
| RuntimeClasses.EncodingDecodes | Sources/ObjectiveKit/RuntimeClass.swift:74-115 | each encoding is a key of `_types` and decodes to the matching case: "@" to object, "f" float, "i" int, "d" double, "v" void |
| RuntimeClasses.FromTypeString | Sources/ObjectiveKit/RuntimeClass.swift:133-146 | the flat `init(typeString:)` computes the same table-first, first-prefix-second, else-unknown rule |
| RuntimeClasses.TableKeysAreSingleCharacters | Sources/ObjectiveKit/RuntimeClass.swift:95-115 | every `_types` key is one character; only "?" maps to unknown, only "," to selector, and no key to a struct kind |
| RuntimeClasses.StructEntriesAreStructKinds | Sources/ObjectiveKit/RuntimeClass.swift:116-131 | every struct entry yields a struct kind |
| RuntimeClasses.StructScan | Sources/ObjectiveKit/RuntimeClass.swift:133-146 | off the table, the result is a struct kind iff a struct prefix matches, it is then the first matching entry's kind, and unknown otherwise |
| RuntimeClasses.TableTakesPrecedence | Sources/ObjectiveKit/RuntimeClass.swift:133-146 | a table key never yields a struct kind, and a string a struct prefix starts is never a key and always yields a struct kind |
| RuntimeClasses.ClassifyUnknownIff | Sources/ObjectiveKit/RuntimeClass.swift:133-146 | the flat classifier yields unknown exactly on "?" and on strings outside the table that no struct prefix starts |
| RuntimeClasses.EarlierKeyNotPrefix | Sources/ObjectiveKit/RuntimeClass.swift:116-131 | no struct prefix is a prefix of a later one in the flat list |
| RuntimeClasses.StructKeysUnshadowed | Sources/ObjectiveKit/RuntimeClass.swift:116-131 | the flat struct list is free of shadowing |
| RuntimeClasses.EveryStructKindReachable | Sources/ObjectiveKit/RuntimeClass.swift:116-146 | each flat struct prefix decodes to its own entry's kind |
| RuntimeClasses.SpecificBeforeFamily | Sources/ObjectiveKit/RuntimeClass.swift:116-143 | every string starting "{CGPoint=" is cgPoint, not cgType |
| RuntimeClasses.FamilyCatchesOtherStructs | Sources/ObjectiveKit/RuntimeClass.swift:116-143 | "{CGFoo}" is cgType |
| RuntimeClasses.StripDashes | Sources/ObjectiveKit/RuntimeClass.swift:22 | the class identifier has no '-' and keeps every other character of the UUID text with its multiplicity |
| RuntimeClasses.StripDashesIdempotent | Sources/ObjectiveKit/RuntimeClass.swift:22 | text that has no '-' is left unchanged |
| RuntimeClasses.RuntimeClass.constructor | Sources/ObjectiveKit/RuntimeClass.swift:21-26 | a new class is unregistered and has no ivars; its id is the UUID text without dashes; its class pair is named "Runtime" + id |
| RuntimeClasses.RuntimeClass.AddIvar | Sources/ObjectiveKit/RuntimeClass.swift:35-42 | allowed only while unregistered; afterwards the class has an ivar of that name; a new name appends exactly one ivar whose encoding is the type's `encoding()`, a name already present changes nothing, and no name occurs twice |
| RuntimeClasses.RuntimeClass.Register | Sources/ObjectiveKit/RuntimeClass.swift:46-52 | idempotent: the class pair is registered once in all, and only by the first call; afterwards `registered` holds; every call returns the same class |
| RuntimeClasses.RuntimeClass.Allocate | Sources/ObjectiveKit/RuntimeClass.swift:57-60 | leaves the class registered, with one registration in all, so `AddIvar` is no longer allowed; the instance belongs to the class |
| KindAgreement.TableKeysAgree | Sources/ObjectiveKit/RuntimeClass.swift:95-115 | `_types` and `_reverseTypes` have the same keys |
| KindAgreement.StructKeysAgree | Sources/ObjectiveKit/RuntimeClass.swift:116-131 | both struct lists hold the same prefixes in the same order |
| KindAgreement.ScansStopTogether | Sources/ObjectiveKit/RuntimeClass.swift:136-143 | both scans stop at the same index on every string |
| KindAgreement.CodesAgree | Sources/ObjectiveKit/RuntimeClass.swift:95-115 | the code that `description` gives each plain case of ObjCType.swift is a key of `_types`, and `_types` maps it to the flat case of the same name |
| KindAgreement.IntegerCodesAgree | Sources/ObjectiveKit/RuntimeClass.swift:96-100 | the same for char, int, short, long and long long |
| KindAgreement.UnsignedCodesAgree | Sources/ObjectiveKit/RuntimeClass.swift:101-105 | the same for the five unsigned cases |
| KindAgreement.OtherCodesAgree | Sources/ObjectiveKit/RuntimeClass.swift:106-114 | the same for float, double, bool, C string, class, void, object and unknown |
| KindAgreement.ToFlatSelector | Sources/ObjectiveKit/ObjCType.swift:13-18 | the name pairing sends the selector, and only the selector, to the flat selector |
| KindAgreement.StructKindsAgree | Sources/ObjectiveKit/RuntimeClass.swift:116-131 | at every index of the two struct lists, the custom kind and the flat kind are cases of the same name |
| KindAgreement.CgStructKindsAgree | Sources/ObjectiveKit/RuntimeClass.swift:117-121 | the same for the point, size, rect, vector and affine-transform entries |
| KindAgreement.OtherStructKindsAgree | Sources/ObjectiveKit/RuntimeClass.swift:122-125 | the same for the 3-D transform, range, edge-insets and offset entries |
| KindAgreement.FamilyKindsAgree | Sources/ObjectiveKit/RuntimeClass.swift:126-130 | the same for the five family entries: UI, CF, CG, CA and NS |
| KindAgreement.SameKindOnTable | Sources/ObjectiveKit/RuntimeClass.swift:133-146 | on a table key both classifiers give cases of the same name |
| KindAgreement.SameKindOffTable | Sources/ObjectiveKit/RuntimeClass.swift:133-146 | off the tables both classifiers give cases of the same name: the same struct entry's kinds, or unknown on both sides |
| KindAgreement.SameKind | Sources/ObjectiveKit/ObjCType.swift:106-119 | both `init(typeString:)` rules classify every string to cases of the same name, and give the selector together |

## Left out

- Sources/ObjectiveKit/RuntimeModification.swift: every method forwards to the runtime (`imp_implementationWithBlock`, `class_addMethod`, `objc_getMetaClass`, `method_exchangeImplementations`). Its only local content is three constant encoding strings. Its success or failure depends on the runtime's method tables, which are not part of this model.
- Sources/ObjectiveKit/ObjectiveClass.swift: its introspection copies the lists that `class_copyIvarList`, `class_copyMethodList` and related calls return, then frees them. It has no behaviour of its own beyond returning what the runtime listed.
- `NSObject.performMethod`: dynamic dispatch through the runtime.
- RuntimeClasses.RuntimeClass.constructor: does not model the failure of `objc_allocateClassPair`, which makes `init?(superclass:)` return nil. The outcome belongs to the runtime. The superclass is a name, and the UUID text is a parameter, because UUID generation is random.
- RuntimeClasses.RuntimeClass.AddIvar: does not model `NSGetSizeAndAlignment` or the size and alignment passed to `class_addIvar`. Those values are platform-dependent. `ivars` records only the name and the encoding. Of the runtime's refusals only the repeated name is modelled; a refusal for size or alignment, and the superclass's ivars, are not. A release build, where Swift's `assert` does not stop the call, is not modelled.
- RuntimeClasses.RuntimeClass.Allocate: the instance is the abstract value `Instance(cls)`. The `alloc()` call and the `.required` cast to `T`, which crashes on failure, are not modelled.
- RuntimeClasses.StripDashes: states that no '-' remains and that every other character keeps its multiplicity. It does not state that their order is kept, though the definition keeps it. The format of UUID text is not modelled.
- Swift string semantics: `hasPrefix` and dictionary lookup compare Swift `String`s by grapheme clusters and canonical equivalence. The model compares sequences of Unicode scalars. The two agree only when the input does not continue a matched prefix's last character with a combining mark, a zero-width joiner or another grapheme extender; they always agree on ASCII input.
- ObjCTypes.SpecificBeforeFamily: holds under the model's scalar-by-scalar prefix test, not under Swift's. For "{CGPoint=\u{301}dd}", the ninth Swift Character is "=" with a combining acute accent, so `hasPrefix("{CGPoint=")` is false and the loop at Sources/ObjectiveKit/ObjCType.swift:111-116 stops at "{CG" (cgType); the model gives the point. The same caveat applies to every lemma about the scan (`StructScan`, `CustomIsPrefix`, `EveryStructKindReachable`).
- RuntimeClasses.SpecificBeforeFamily: the same counterexample applies to the flat loop at Sources/ObjectiveKit/RuntimeClass.swift:138-143, and so to `KindAgreement.SameKind`, whose two sides share the model's prefix test.
- Totality of decoding needs no lemma: `Classify` is a total function, so every string yields some case.
