# NEO-Explorer entity and linkage layer, in Dafny

This project models `models.py` of NEO-Explorer. That file holds two classes:

- `NearEarthObject` turns a partly missing NASA record into a near-Earth object (NEO). An empty name becomes no name. An empty diameter becomes NaN, meaning "unknown". The hazard flag `'N'` or `''` becomes false, and any other value becomes true. A new NEO starts with an empty list of close approaches.
- `CloseApproach` keeps the raw designation of its NEO. `assign_neo` resolves that designation against a designation → NEO dict and links both sides. `serialize` renders a linked approach as a flat `csv` dict or a nested `json` dict.

Files:

- `wrappers.dfy` (module `Wrappers`): `Option` and `Result`.
- `models.dfy` (module `Models`): the per-field normalisation functions, both classes, the serialised values, and lemmas on the two output shapes.
- `linking.dfy` (module `Linking`): a driver that calls `AssignNeo` on each approach in load order, the function `Owned` that specifies it, and lemmas on ordering, ownership and two-way consistency.

Representation choices:

- A Python float is `Float = Option<real>`, where `None` is NaN.
- Python's `float(...)` on a string is the parameter `toFloat`. Its one required fact is that `float("nan")` is NaN (`ParsesNaN`).
- `str` on a float is the parameter `floatStr`.
- `time_str`, which is `datetime_to_str(cd_to_datetime(cd))`, is the parameter `render`, applied to the raw date text kept in `time`.
- A Python dict is a sequence of (key, value) pairs in insertion order.
- `designation`, `name`, `diameter` and `hazardous` of a NEO, and the raw designation, time, distance and velocity of an approach, are `const`. Nothing in the code writes them after `__init__`. So `approaches` and `neo` are the only state the model's frames need to track.

Two details of the code that the model keeps:

- `serialize` dereferences `self.neo` at models.py:172 before it tests the extension. An unlinked approach therefore raises `AttributeError` for every extension. The model returns `Err(AttributeError)` for it.
- `fullname` tests the name's truthiness (models.py:63), not `is None`. The model keeps that test, and `NearEarthObject.Valid` records that a constructed NEO never stores `Some("")`.

## Model

| member | source | states |
|---|---|---|
| `Models.NormalizeName` | models.py:46 | the stored name is `None` exactly when the input name is empty, and otherwise is the input unchanged; `Some("")` is never produced |
| `Models.NormalizeDiameter` | models.py:48-50 | an empty diameter gives the unknown value (NaN), never a number such as zero; a non-empty one gives its parsed value |
| `Models.Hazardous` | models.py:52-54 | hazardous is false exactly when the flag is `"N"` or empty, and true for every other value |
| `Models.DefaultsNormalise` | models.py:36 | the constructor's parameter defaults (`name=''`, `diameter=''`, `pha='N'`) give no name, an unknown diameter and not hazardous |
| `Models.NearEarthObject.constructor` | models.py:36-57 | the designation is the input; name, diameter and hazard are the normalised inputs; `approaches` is empty; the name is never empty |
| `Models.NearEarthObject.Fullname` | models.py:59-65 | the full name starts with the designation; it equals the designation exactly when there is no (or an empty) name; otherwise the rest is `" (" + name + ")"` |
| `Models.Resolve` | models.py:156-157 | a designation resolves to a NEO exactly when it is a key of the dict, and then to `neos[designation]` |
| `Models.CloseApproach.constructor` | models.py:101-115 | the raw designation and date text are kept; distance and velocity are the parsed inputs; the approach starts unlinked |
| `Models.CloseApproach.Subject` | models.py:132-138 | the string form names the raw designation when unlinked, and otherwise the NEO's full name, which begins with the NEO's designation |
| `Models.CloseApproach.TimeStr` | models.py:117-130 | `time_str` is the date helpers applied to the stored approach time; the helpers themselves are a parameter |
| `Models.CloseApproach.AssignNeo` | models.py:147-161 | on a hit, `neo` is `neos[designation]` and that NEO's list is its old value with this approach appended; on a miss, `neo` is `None`; no other NEO's list changes; only `neo` and the lists of NEOs in `neos` may change; returns `self` |
| `Models.CloseApproach.Attributes` | models.py:172-176 | the attribute tuple in field-name order: rendered time, distance, velocity, designation, name, diameter, hazard flag; the name is `""` when the NEO has none, and for a constructed NEO it is `""` only then |
| `Models.Stringify` | models.py:179 | `str(attr)` on each attribute, in order: strings unchanged, floats through `str`, booleans as `True`/`False` |
| `Models.Zip` | models.py:180 | Python's `zip`: as long as the shorter input, with the i-th key paired to the i-th value |
| `Models.CloseApproach.Serialize` | models.py:163-188 | unlinked gives `AttributeError`; an extension other than `csv`/`json` gives `ValueError`; `csv` gives the seven field names in fixed order, all with string values; `json` gives keys `datetime_utc, distance_au, velocity_km_s, neo`, where `neo` is a dict keyed `designation, name, diameter_km, potentially_hazardous` |
| `Models.SerializeJsonShape` | models.py:172-176 | the exact `json` output of a linked approach: rendered time, distance and velocity as native values, then the NEO's designation, name (`""` when absent), diameter and hazard flag nested under `neo` |
| `Models.CsvIsFlattenedJson` | models.py:178-185 | both shapes come from one attribute tuple: the `csv` row equals the `json` dict flattened, with every value turned into its `str` |
| `Models.CsvNameEmptyIffNoName` | models.py:172-180 | in the `csv` row, `name` is the empty string exactly when the NEO has no name |
| `Linking.LinkAll` | models.py:156-160 | after `assign_neo` has run on every approach in order, each approach is linked to what its designation resolves to, and each NEO's list is its old list followed by the approaches it owns, in input order |
| `Linking.OwnedAppend` | models.py:158 | appending preserves input order: the approaches owned from one batch followed by another are those of the first batch, then those of the second |
| `Linking.OwnedCount` | models.py:156-160 | an approach occurs in a NEO's owned list as often as in the input when its designation resolves to that NEO, and never otherwise |
| `Linking.AtMostOneOwner` | models.py:156-158 | no approach is owned by two different NEOs |
| `Linking.OwnedExactlyOnce` | models.py:156-158 | when each approach is loaded once, each one that resolves is listed exactly once by its NEO |
| `Linking.LinkedBothWays` | models.py:156-160 | after linking from empty lists, every approach a NEO lists points back to that NEO; every linked approach is listed by its NEO; an unlinked approach is listed by no NEO |

`Linking.ConstructScenario` and `Linking.LinkScenario` are client methods that use only the members' contracts. The first builds two sample records: 433/Eros, and 2015 AB with no name or diameter (also once from the constructor's defaults alone). The second links one approach to "433" and one to an unknown designation.

## Left out

- Loading: reading `neos.csv` and `cad.json` and building records with `zip` is file I/O. extract.py is not part of this model.
- Date helpers: `cd_to_datetime` and `datetime_to_str` live in `helpers`, which is not part of this model. Their composition is the parameter `render`, so the minute-precision round trip is not stated.
- Floating point: `float(...)` and `str(float)` are parameters (`toFloat`, `floatStr`). The `ValueError` that `float` raises on malformed text, IEEE semantics and NaN's self-inequality (models.py:71) are not modelled.
- Text forms: `__str__` and `__repr__` of both classes use `.3f`/`.2f` formatting and `repr` quoting (models.py:67-84, models.py:132-145). Only the choice of subject in `CloseApproach.__str__` is modelled, as `Subject`.
- `extra_information` (models.py:57, models.py:115): an opaque keyword dict with no behaviour.
- The `NEODatabase` constructor and its designation and name indices are referred to in docstrings only; that code is not part of this model. `LinkAll` stands in for its loop that calls `assign_neo` on every approach.
- Serialize idempotence: `Serialize` is a function of the approach's and its NEO's fields, so two calls on the same state are equal by construction. There is no separate lemma for it.
- Coercions: `str(pdes)`, `str(name)` and `str(des)` are identities on the string inputs the loader supplies. Non-string inputs are not modelled.
- Calling `assign_neo` twice on the same approach appends it again. The NEO it was linked to before keeps it in its list. `AssignNeo`'s contract states this as written. The two-way lemmas assume the loader calls it once per approach.
