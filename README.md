# Helios transformer registry — a Dafny model

This project models the core of `Transformer.java` from the Helios decompiler:

- **Id and name validation.** An id must be non-null and non-empty. It may hold only digits, lower-case ASCII letters, `-`, `.` and `_`. The Java code finds the first character matching the negated class `[^0-9a-z\-._]`. A name must only be non-null and non-empty.
- **Construction.** The id is checked first, then the name, then the optional settings class. When the settings class is an enum, each of its constants is registered once in the transformer's own `TransformerSettings`. Any other class makes construction fail.
- **The two-keyed registry.** `BY_ID` and `BY_NAME` are insertion-ordered maps. `register()` refuses a taken id, then a taken name, before it writes to either map. Otherwise it inserts the instance into both maps and returns it.
- **Read-only queries.** These are `getById`, `getByName`, `getAllTransformers(filter)` (in id-insertion order) and `getAllTransformers()`. `hasSettings` and identity `equals` are modelled too.

How the Java maps to Dafny:

- Java `null` becomes `Option.None`. Exceptions become `Result.Failure` / `Outcome.Fail` carrying an `Error`. `Failures.Message` gives the exact exception text for each error.
- The static `BY_ID`/`BY_NAME` pair becomes an explicit `Registry` object. Its fields are `byId`, `byName` and `order`. `order` lists the ids in insertion order and stands in for `LinkedHashMap` iteration order.
- `Registry.Valid()` (the predicate `Consistent`) is the registry invariant. Every instance is stored under its own id and under its own name. The ids in `order` are distinct and are exactly the keys of `byId`. Both maps hold the same set of instances. Every registered instance is `Legal()`.
- Transformer instances are Dafny class references, so identity equality is reference equality. `id`, `name` and `settings` are `const`, as they are `final` in Java.
- A Java constructor can throw, so each one becomes a static factory method: `Transformer.Create` (two arguments) and `Transformer.CreateWithSettings` (three). Each returns a `Result`. The Dafny `constructor` is the part that runs after the checks. It sets the fields and loops over the enum constants. It requires a legal id and a non-empty name, so, as in Java, no instance exists without them. The ghost predicate `Transformer.Legal()` names that guarantee. `Register` and the registry invariant rely on it.
- Reflection (`isEnum`, `getEnumConstants`) becomes the datatype `SettingsClass = NotAnEnum | EnumClass(constants)`.
- Two client methods, `Registry.DuplicateScenario` and `Registry.EnumerationScenario`, use only `Register`'s contract (and the bodies of the lookup functions). They show that a taken id or name is refused while the first registration stays in place, and that two registrations are listed in the order they were made.
- `getAllTransformers(filter)` is `Filter` applied to the instances in id order. `Sequences` proves what `Filter` keeps: membership, order (a subsequence), no repetition, and behaviour under concatenation.

## Model

| member | source | states |
|---|---|---|
| Identifiers.FindIllegal | src/main/java/com/heliosdecompiler/helios/transformers/Transformer.java:152-153 | the regex search for `[^0-9a-z\-._]`: returns the first index holding a non-id character, with every earlier character legal; returns None iff every character is legal |
| Identifiers.CheckLegalId | src/main/java/com/heliosdecompiler/helios/transformers/Transformer.java:150-156 | an id passes iff it is present, non-empty and all its characters are in `[0-9a-z\-._]`; a null or empty id fails with EmptyId (checked first); a non-empty id with some illegal character fails with IllegalIdCharacter |
| Identifiers.OneIllegalCharacterRefuses | src/main/java/com/heliosdecompiler/helios/transformers/Transformer.java:38-42 | one illegal character at any position refuses the id, whatever surrounds it |
| Identifiers.ExampleIds | src/main/java/com/heliosdecompiler/helios/transformers/Transformer.java:150-156 | `My.Transformer` is refused for an illegal character; `my-transformer_v2.0` is accepted |
| Identifiers.CheckLegalName | src/main/java/com/heliosdecompiler/helios/transformers/Transformer.java:158-160 | a name passes iff it is present and non-empty (no character restriction); otherwise it fails with EmptyName |
| Failures.Message | src/main/java/com/heliosdecompiler/helios/transformers/Transformer.java:90-96 | the exception text of each condition (the fixed texts of lines 69, 151, 154 and 159, and `<key> already exists!`); every message is non-empty and a duplicate's message starts with the offending id or name |
| Failures.DuplicateMessagesCoincide | src/main/java/com/heliosdecompiler/helios/transformers/Transformer.java:91-96 | a duplicate id and a duplicate name with the same text give the same message |
| Transformers.Transformer.HasSettings | src/main/java/com/heliosdecompiler/helios/transformers/Transformer.java:114-116 | true exactly when the settings container holds at least one setting |
| Transformers.Transformer.Equals | src/main/java/com/heliosdecompiler/helios/transformers/Transformer.java:145-148 | true exactly for the same instance, which then has the same id and name |
| Transformers.TransformerSettings.RegisterSetting | src/main/java/com/heliosdecompiler/helios/transformers/Transformer.java:66 | registering a setting adds exactly one entry to the container |
| Transformers.Transformer.constructor | src/main/java/com/heliosdecompiler/helios/transformers/Transformer.java:61-67 | given a legal id and a non-empty name (the checks of lines 59-60 have passed), sets them and registers every enum constant once into a fresh settings container, so its size is the number of constants |
| Transformers.Transformer.Create | src/main/java/com/heliosdecompiler/helios/transformers/Transformer.java:54-56 | construction without settings fails with the id error first, then the name error; it succeeds iff the id is legal and the name non-empty, and the result has no settings |
| Transformers.Transformer.CreateWithSettings | src/main/java/com/heliosdecompiler/helios/transformers/Transformer.java:58-72 | fails with the id error, else the name error, else SettingsNotEnum for a non-enum class; otherwise a fresh instance with the given id and name whose settings size is the number of enum constants, so hasSettings holds iff there is at least one constant |
| Registry.Instances | src/main/java/com/heliosdecompiler/helios/transformers/Transformer.java:87 | `BY_ID.values()` in insertion order: one entry per id in `order`, the i-th being the instance stored under the i-th id |
| Registry.SameSize | src/main/java/com/heliosdecompiler/helios/transformers/Transformer.java:91-98 | under the registry invariant the two maps have the same size |
| Registry.InstancesAreRegistered | src/main/java/com/heliosdecompiler/helios/transformers/Transformer.java:86-88 | the enumeration holds exactly the registered instances, each once, the i-th having the i-th registered id |
| Registry.RegisteredIdentity | src/main/java/com/heliosdecompiler/helios/transformers/Transformer.java:140-148 | for registered instances, identity `equals` holds iff the ids are equal, and iff the names are equal |
| Registry.InsertKeepsConsistent | src/main/java/com/heliosdecompiler/helios/transformers/Transformer.java:97-98 | inserting an instance whose id and name are both new into both maps keeps the registry invariant (same instances in both maps, each under its own keys) |
| Registry.InsertAppends | src/main/java/com/heliosdecompiler/helios/transformers/Transformer.java:97 | inserting under a new id appends the instance to the end of the id-ordered enumeration and leaves earlier entries in place |
| Registry.Registry.constructor | src/main/java/com/heliosdecompiler/helios/transformers/Transformer.java:44-45 | the registry starts with both maps empty and satisfies the invariant |
| Registry.Registry.GetById | src/main/java/com/heliosdecompiler/helios/transformers/Transformer.java:74-76 | returns an instance iff the id is registered; that instance has this id and is also registered by name |
| Registry.Registry.GetByName | src/main/java/com/heliosdecompiler/helios/transformers/Transformer.java:78-80 | returns an instance iff the name is registered; that instance has this name and is also registered by id |
| Registry.Registry.AllInstances | src/main/java/com/heliosdecompiler/helios/transformers/Transformer.java:87 | the values of BY_ID in insertion order: as many as there are ids, the i-th with the i-th inserted id, each registered instance present exactly once |
| Registry.Registry.GetAllTransformers | src/main/java/com/heliosdecompiler/helios/transformers/Transformer.java:86-88 | returns exactly the registered instances that satisfy the filter, each once, as a subsequence of the id-insertion order; being a function, it changes nothing |
| Registry.Registry.GetAllTransformersUnfiltered | src/main/java/com/heliosdecompiler/helios/transformers/Transformer.java:82-84 | the accept-all filter returns every registered instance in insertion order |
| Registry.Registry.Register | src/main/java/com/heliosdecompiler/helios/transformers/Transformer.java:90-100 | for a constructed (legal) instance, a taken id fails with DuplicateId (checked first) and a taken name fails with DuplicateName, both leaving the registry unchanged; otherwise the instance is added to both maps and to the end of the order, getById/getByName return it, the result is the instance itself, and nothing else changes; the invariant and equal map sizes are kept |
| Registry.Registry.RegisterAll | src/main/java/com/heliosdecompiler/helios/transformers/Transformer.java:162-169 | registers the instances in turn and stops at the first refusal, which it reports; the enumeration grows by exactly the prefix that was registered |
| Sequences.Filter | src/main/java/com/heliosdecompiler/helios/transformers/Transformer.java:87 | the stream filter: every kept element is in the input and satisfies the predicate, every input element that satisfies it is kept, and the result is no longer than the input |
| Sequences.FilterIsSubsequence | src/main/java/com/heliosdecompiler/helios/transformers/Transformer.java:87 | filtering keeps the input's order: the result embeds in the input at strictly increasing positions |
| Sequences.FilterDistinct | src/main/java/com/heliosdecompiler/helios/transformers/Transformer.java:87 | filtering a sequence without repetitions gives one without repetitions |
| Sequences.FilterAcceptingAll | src/main/java/com/heliosdecompiler/helios/transformers/Transformer.java:83 | a predicate that accepts everything returns the input unchanged |
| Sequences.FilterSnoc | src/main/java/com/heliosdecompiler/helios/transformers/Transformer.java:87 | filtering a sequence with one more element at the end gives the old result, extended by that element exactly when it passes the filter |
| Sequences.FilterConcat | src/main/java/com/heliosdecompiler/helios/transformers/Transformer.java:87 | filtering distributes over concatenation, so an instance registered later is listed after those registered earlier |
| Maps.KeyedMapSize | src/main/java/com/heliosdecompiler/helios/transformers/Transformer.java:44-45 | a map that stores each value under its own key has as many distinct values as keys (this gives equal sizes from equal value sets) |

## Left out

- `LocalSocket.java` is not part of this model. It binds a socket to a fixed port, runs an endless accept loop on a thread and reads through an external I/O library. Its dispatch body is commented out, so it has no behaviour to state.
- The static initializer and `Transformer0.registerAll` build concrete plugins (Krakatau and Smali assemblers, compilers) that are not part of this model. `Registry.RegisterAll` models a generic bootstrap over a given sequence of instances instead.
- `parseException` formats stack traces and prints to standard error. It is I/O.
- `fixBytes` is a deprecated identity function.
- The abstract `transform` has no body to model.
- `hashCode` returns `System.identityHashCode`, which has no counterpart here. Identity equality is modelled by reference equality (`Transformer.Equals`).
- `TransformerSettings` internals are not part of this model. The container keeps only a count of registered settings, which is all `hasSettings` reads.
- Registry.Registry.GetAllTransformers: the filter is a total function `Transformer -> bool`, so it can look only at an instance's identity, id and name, not at mutable state. Its result is a sequence value, not a fresh mutable list.
- Concurrency: the registry is modelled as a single object mutated by one thread. The Java static maps have no locking.
