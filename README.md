# Strict key/value parser: commit logic

This project models the strict mode of a parser for `key=value` pairs separated by
whitespace. In strict mode the caller supplies an allow-list of key spellings and a
case-sensitivity flag. Once the scanner has read a whole pair, the strict parse-info
object commits it. If the key is not on the allow-list, the commit throws an
invalid-key error that carries the key and the scanner's current offset. Otherwise
it stores the value under the key, spelled as in the input, and clears the
accumulators for the next pair.

The model has four modules:

- `Wrappers` (`wrappers.dfy`): `Option` and `Outcome`, standing in for `undefined` and for a thrown error.
- `StrictParseInfo` (`strict_parse_info.dfy`):
  - the allow-list test `contains`, written like the source: the `find` for the first matching entry (`Find`), then the JavaScript truthiness of what it returns (`Contains`);
  - the class `StrictParseInfo`, whose `PushKeyValuePair` is the commit step.
- `StrictParser` (`strict_parser.dfy`): the constructor defaults. A missing or falsy key list becomes `[]`, and an omitted flag means case-sensitive. The parse-info creator captures both.
- `Scenarios` (`scenarios.dfy`): the strict parser's test cases replayed on the commit step. The offset the scanner would report is a parameter.

Two consequences of the code are easy to miss:

- `find` returns the matching entry itself, and the caller tests its truthiness. So an allow-list entry `""` never accepts anything, not even the empty key. `Contains` is therefore stated as "the key is non-empty and some entry matches it".
- The result object is written with a plain property assignment. The model is a `map` and does not claim that insertion order is kept.

## Model

| member | source | states |
|---|---|---|
| `StrictParseInfo.Find` | src/strictParseInfo.js:6-9 | `find` returns `None` iff no entry matches. Otherwise it returns an entry that matches, and no earlier entry matches. |
| `StrictParseInfo.Contains` | src/strictParseInfo.js:5-10 | The truthiness of the `find` result. It holds iff the key is non-empty and some entry matches under the flag's policy. |
| `StrictParseInfo.ContainsCaseSensitive` | src/strictParseInfo.js:7 | With the flag set, a key is accepted iff it is non-empty and literally on the list. |
| `StrictParseInfo.ContainsCaseInsensitive` | src/strictParseInfo.js:8 | With the flag clear, a key is accepted iff it is non-empty and some entry is equal to it once both are lowercased. |
| `StrictParseInfo.EmptyListRejects` | src/strictParseInfo.js:6 | An empty allow-list accepts no key, under either policy. |
| `StrictParseInfo.EmptyKeyRejected` | src/strictParseInfo.js:6 | The empty key is rejected whatever the list holds, because a matching `""` entry is falsy. |
| `StrictParseInfo.ContainsIgnoresOrder` | src/strictParseInfo.js:6-9 | Two lists with the same set of spellings accept the same keys. Order and repetition do not matter. |
| `StrictParseInfo.SensitiveImpliesInsensitive` | src/strictParseInfo.js:7-8 | Every key accepted case-sensitively is also accepted case-insensitively. |
| `StrictParseInfo.UpperKeyRejectedCaseSensitive` | test/testCaseSensitiveStrictParser.js:98-103 | `NAME` is not accepted against `["name"]` with the flag set. |
| `StrictParseInfo.MixedKeyAcceptedCaseInsensitive` | test/testCaseSensitiveStrictParser.js:22-28 | `nAmE` is accepted against `["NAME", "name"]` with the flag clear, and `find` returns the first entry, `NAME`. |
| `StrictParseInfo.Store` | src/strictParseInfo.js:23 | After `parsed[key] = value`, the key holds the value, earlier values included. The key set gains only that key, and every other entry is unchanged. |
| `StrictParseInfo.StrictParseInfo.constructor` | src/strictParseInfo.js:12-16 | `flag` and `validKeys` are the given ones. The scan state starts empty, so every stored key is trivially allowed. |
| `StrictParseInfo.StrictParseInfo.ResetKeysAndValues` | src/strictParseInfo.js:24 | Clears the key and value accumulators and nothing else. |
| `StrictParseInfo.StrictParseInfo.PushKeyValuePair` | src/strictParseInfo.js:20-25 | The commit fails iff the current key is not accepted. On failure it returns `InvalidKeyError("invalid key", currentKey, currentPos)` and the object is unchanged. On success the old current value is stored under the old current key, other entries are kept and the accumulators are cleared. Either way, "every stored key is allowed" is preserved. |
| `StrictParser.GivenListKept` | src/strictParser.js:6 | A key list that is given is passed on unchanged. |
| `StrictParser.AbsentListRejectsAll` | src/strictParser.js:6 | With no list, or a falsy one, the list used is empty and no key is accepted under either policy. |
| `StrictParser.GivenFlagKept` | src/strictParser.js:4 | A flag that is given is passed on unchanged. |
| `StrictParser.OmittedFlagIsCaseSensitive` | src/strictParser.js:4 | With the flag omitted, a key is accepted iff it is non-empty and literally on the list. |
| `StrictParser.StrictParser.constructor` | src/strictParser.js:4-8 | The parse-info creator holds the sanitised list and the defaulted flag. |
| `StrictParser.StrictParser.NewParseInfo` | src/strictParser.js:7 | Each parse gets a fresh parse info that carries the creator's list and flag and has no stored pairs. |
| `Scenarios.UnlistedKeyRejected` | test/testStrictParser.js:21-32 | `age=23` against `["name"]` fails with an invalid-key error for `age` at the scanner's offset. |
| `Scenarios.ListedKeysStored` | test/testStrictParser.js:34-51 | `name=john age=23` against `["name", "age"]` gives exactly `{name: john, age: 23}`. A later parse of `color=blue` fails for `color`. |
| `Scenarios.FirstInvalidKeyAborts` | test/testStrictParser.js:53-64 | In `name=john color=blue age=23` the commit of `color` fails for `color`, and only `name` has been stored by then. |
| `Scenarios.NoKeysRejectsName` | test/testStrictParser.js:105-129 | A parser built with `[]`, or with no list, rejects `name=john` with an invalid-key error for `name`. |
| `Scenarios.InputSpellingKept` | test/testCaseSensitiveStrictParser.js:8-14 | Case-insensitively, `NAME=jayanth` against `["name"]` is stored under `NAME`. |
| `Scenarios.MixedCaseKeysStored` | test/testCaseSensitiveStrictParser.js:86-92 | Case-insensitively, `naMe_123=jayanth AGe_123=31` against `["NaMe_123", "age_123"]` stores both pairs under the input's spellings. |
| `Scenarios.CaseSensitiveRejectsUpper` | test/testCaseSensitiveStrictParser.js:98-103 | Case-sensitively, `NAME=jayanth` against `["name"]` fails with an invalid-key error for `NAME`. |

## Left out

- The character scanner is not part of this model. Its files are `keyValueParser.js`, `parseInfo.js` and `parseInfoCreator.js`. This covers how keys, values and offsets are found, and every other error kind. The scenarios therefore write the pair into the parse info themselves and take the offset as a parameter.
- `StrictParseInfo.StrictParseInfo.constructor`: the base constructor (`ParseInfo.call`) is not part of this model. It is modelled as starting with no stored pairs, empty accumulators and offset 0, and the initial parsing function is dropped.
- `StrictParseInfo.StrictParseInfo.ResetKeysAndValues`: its body is in `parseInfo.js`, which is not part of this model. It is modelled as clearing the key and value and leaving the offset alone.
- `StrictParser.StrictParser.constructor`: the source hands the caller's own key array to the creator and the parse info stores that reference, so every later `find` reads the array as it is at that moment; a caller that pushes to the array after construction changes which keys are accepted. The model copies the list as a value at construction and does not model later changes to it.
- `StrictParser.StrictParser.NewParseInfo`: `parseInfoCreator.js` is not part of this model. The creator is modelled as the pair of arguments it captures, and each parse-info it makes is a new `StrictParseInfo` built from them.
- The result object is a `map`. The order in which JavaScript lists an object's keys is not modelled, and neither is the special `__proto__` property. This follows from `parsed.js` not being part of this model.
- The error classes (`src/errors/`) are not part of this model. The invalid-key error is a datatype carrying the message, the key and the offset.
- `StrictParseInfo.Lower`: lowercasing covers ASCII only; full Unicode `toLowerCase` is not modelled. Keys the grammar produces are ASCII, but allow-list entries come from the caller and may hold any character. A non-ASCII entry is the gap: U+212A KELVIN SIGN lowercases to `k` in JavaScript, so `["\u212A"]` accepts `k` case-insensitively in the source, while `Contains` rejects it.
- `StrictParser.SanitisedKeys`: a truthy argument that is not an array, and list entries that are not strings, are not modelled. Either would make `find` or `toLowerCase` throw a type error, or would use loose `==` between a string and a non-string.
- `StrictParser.CaseSensitivity`: the flag is a `bool`, and a flag passed explicitly stands for its JavaScript truthiness. An explicit `undefined` behaves like an omitted flag.
- Prototype wiring (`Object.create`, `Parser.call`) has no behaviour of its own and is not modelled.
