# antiSMASH JSON shim and cluster-class table, modelled in Dafny

This project models two small pieces of antiSMASH's `antismash/common` package.

* `json.py` is a thin layer over the orjson encoder. `dumps` builds the
  orjson option mask from stdlib-style switches. `_base_convertor` is the
  default hook the encoder calls on objects it cannot encode itself: first
  match wins among a biological `Seq` (its string form), `to_json()`,
  `__json__()` and `TypeError`. `JSONBase` and its subclasses `JSONDomain`
  and `JSONOrf` are view objects. Their `items()`, `values()` and `len()`
  follow a declared, ordered key list, and each value is read with
  `getattr`.
* `cluster_class.py` holds `cluster_class_dict`, one dict display. It maps
  gut-metabolism gene-cluster names to class labels. One key,
  `succinate2propionate`, is written twice with the same value.

Files:

* `wrappers.dfy` (module `Wrappers`): `Option` and `Result`.
* `json.dfy` (module `Json`): the option mask, the conversion hook, `dumps`
  and the views.
* `cluster_class.dfy` (module `ClusterClass`): the table.

How the Python is modelled:

* An orjson option mask is a `set<OptFlag>`. The three named bits are
  distinct constructors. Any other bit a caller passes is `Other(n)`. `|=`
  becomes set union.
* Default arguments of `_convert_std_to_orson` and `dumps` are Dafny
  default parameters with the same values. `_convert_std_to_orson`
  defaults to `indent = true`; `dumps` defaults to `indent = false`.
* An object given to the hook is described by what the hook can learn about
  it (`PyObject`): `str(obj)` if it is a `Seq`, and what `to_json()` and
  `__json__()` return if it has them.
* Dafny has no subclassing here, so `JSONBase`, `JSONDomain` and `JSONOrf`
  are one class, `JsonBase`. It has three constructors and a `cls` tag
  recording which Python class built it. The instance attributes are a
  `map` from name to value, and `_keys` is the `keys` field. `getattr` on a
  name with no attribute is `AttributeError`.
* The dict display is the sequence `Entries` of its 62 entries, in source
  order. `DictOf` evaluates it as Python does: left to right, so a later
  entry overwrites an earlier one. The sequence is written as four shorter
  displays concatenated in order, so that the verifier can index into it.
  `Lookup` returns `None` for a key the table lacks.

Details of the code the model keeps:

* `add_domain` checks its argument with `assert`, so a wrong argument
  raises `AssertionError`.
* The hook raises a bare `TypeError`.
* The hook tries `to_json` before `__json__`.
* `__getitem__` is plain `getattr`.

## Model

| member | source | states |
|---|---|---|
| `Json.ComposedOption` | antismash/common/json.py:43-50 | The result always has the non-string-keys bit and keeps every bit of the caller's mask. The sort-keys bit is set iff `sort_keys` or it was already set; the same holds for the indent bit and `indent`. No other bit is added. |
| `Json.ConvertStdToOrjson` | antismash/common/json.py:43-50 | The step-by-step `\|=` updates yield exactly the mask `ComposedOption` characterises. |
| `Json.ComposedOptionIdempotent` | antismash/common/json.py:43-50 | Feeding the result back in with the same switches returns the same mask. |
| `Json.ComposedOptionDefaults` | antismash/common/json.py:43 | With its own defaults (`indent = True`) the function sets the non-string-keys and indent bits. |
| `Json.DumpsDefaultOption` | antismash/common/json.py:53-54 | With the defaults of `dumps` (no indent, no sorting, empty mask) only the non-string-keys bit is set. |
| `Json.Dumps` | antismash/common/json.py:53-69 | The encoder receives the object, the hook and the mask composed from the caller's `indent`, `sort_keys` and `option`. Its result, text or the exception it raised, is what `dumps` returns. |
| `Json.PlainDumps` | antismash/common/json.py:53-69 | A plain `dumps(obj)` gives the encoder `_base_convertor` and a mask holding only the non-string-keys bit, and returns the encoder's text or exception. |
| `Json.Candidates` | antismash/common/json.py:31-40 | The hook's three candidates, in the order it tries them: the `Seq` text, then `to_json()`, then `__json__()`. Each is present exactly when the object offers that conversion and carries what it returns (`str(obj)` for the first); only the first is text. |
| `Json.FirstMatch` | antismash/common/json.py:31-40 | Finds a candidate iff one is present; the one found is present and all before it are absent (first match wins). |
| `Json.BaseConvertor` | antismash/common/json.py:31-40 | A `Seq` object becomes its string form, whatever methods it has. Otherwise `to_json` wins over `__json__`, and `__json__` is used when it is the only one. It fails iff the object is no `Seq` and has neither method, and then with `TypeError`. |
| `Json.BaseConvertorIsFirstMatch` | antismash/common/json.py:31-40 | The hook equals the first-match search over its three candidates in priority order, with `TypeError` when none applies. |
| `Json.JsonBase.constructor` | antismash/common/json.py:87-89 | A plain `JSONBase` has the given key list and no attributes yet. |
| `Json.JsonBase.Domain` | antismash/common/json.py:108-119 | Declares exactly `type, start, end, predictions, napdoslink, blastlink, sequence, dna_sequence`, in that order. `start` and `end` are stored as ints, the predictions as the given pairs, and the rest as strings. Every key is bound and `len` is 8. |
| `Json.JsonBase.Orf` | antismash/common/json.py:124-128 | Declares exactly `id, sequence, domains`. `id` is the feature's name, `sequence` its translation, and `domains` starts empty. `len` is 3. |
| `Json.JsonBase.GetItem` | antismash/common/json.py:91-92 | `obj[k]` succeeds iff attribute `k` exists and then returns it; otherwise it is `AttributeError(k)`. |
| `Json.JsonBase.Len` | antismash/common/json.py:102-103 | The size is the number of declared keys, however many attributes exist. |
| `Json.JsonBase.Items` | antismash/common/json.py:94-96 | Succeeds iff every declared key names an attribute. It then yields one pair per declared key, in declaration order, `Len()` pairs in all, each pair being the key and its attribute. Otherwise it raises `AttributeError` for the first unbound key. |
| `Json.JsonBase.Values` | antismash/common/json.py:98-100 | The same for `values()`: the attribute of each declared key, in declaration order, or `AttributeError` for the first unbound key. |
| `Json.JsonBase.AddDomain` | antismash/common/json.py:130-133 | Succeeds iff the argument is a `JSONDomain`. Then `domains == old(domains) + [d]` and no other attribute changes. Otherwise it raises `AssertionError` and nothing changes. Every element of `domains` stays a `JSONDomain` view (kept by `Valid`). |
| `Json.DomainItems` | antismash/common/json.py:106-119 | `items()` of a new `JSONDomain` yields its eight fields, in declaration order, with the constructor's values. |
| `Json.OrfItems` | antismash/common/json.py:122-128 | `items()` of a new `JSONOrf` yields `id`, `sequence` and an empty `domains`, in declaration order, even though the constructor assigns `sequence` before `id`. |
| `ClusterClass.DictOf` | antismash/common/cluster_class.py:1 | Evaluates a dict display as Python does (key order is not kept), inserting the entries left to right so a later entry overwrites an earlier one. The result's keys are exactly the keys the entries write. |
| `ClusterClass.DictOfLastWrite` | antismash/common/cluster_class.py:1 | The last entry that writes a key decides its value (last write wins). |
| `ClusterClass.DictOfValueSource` | antismash/common/cluster_class.py:1 | Every value of the dict comes from the last entry of its key. |
| `ClusterClass.DistinctKeySetSize` | antismash/common/cluster_class.py:1 | A display with no repeated key has as many keys as entries. |
| `ClusterClass.OneRepeatSize` | antismash/common/cluster_class.py:1 | A display whose only repetition is one key written twice has one key fewer than entries. |
| `ClusterClass.OnlyRepeat` | antismash/common/cluster_class.py:1 | The literal's only repeated key is at entries 36 and 42. |
| `ClusterClass.DistinctKeyCount` | antismash/common/cluster_class.py:1 | The literal has 62 entries and `cluster_class_dict` has 61 keys, one fewer. |
| `ClusterClass.EntryLabels` | antismash/common/cluster_class.py:1 | Every entry's label is one of the nine labels. |
| `ClusterClass.EntryFamilies` | antismash/common/cluster_class.py:1 | Every entry whose key starts with `OD_`, `TPP_`, `GR_` or `Flavoenzyme_` is labelled `Putative`. |
| `ClusterClass.Lookup` | antismash/common/cluster_class.py:1 | An identifier is found iff the literal writes it. Its label is the one written by its last entry, is one of the nine labels, and is `Putative` for the four prefix families. |
| `ClusterClass.TableLabels` | antismash/common/cluster_class.py:1 | Every value of `cluster_class_dict` is one of the nine labels. |
| `ClusterClass.RepeatedKey` | antismash/common/cluster_class.py:1 | `succinate2propionate` is written twice with `SCFA`, and looking it up gives `SCFA`. |
| `ClusterClass.LookupLastWrite` | antismash/common/cluster_class.py:1 | Looking up the key of an entry that is its key's last write gives that entry's label. |
| `ClusterClass.SampleEntries` | antismash/common/cluster_class.py:1 | `pdu → alcohol-SCFA`, `TMA → Aliphatic_amine-SCFA`, `proline2aminovalerate → npAA`, `Rnf_complex → E-MGC`. |
| `ClusterClass.UnknownNotFound` | antismash/common/cluster_class.py:1 | An identifier the literal does not write is not found. |

## Left out

- The JSON text itself: `orjson.dumps` and `loads` are a foreign library. `Dumps` takes the encoder as a parameter, which returns text or the exception it raised. It does not model the `.decode()` of the encoder's bytes; the encoder returns text directly. No round-trip, sorting or indentation claims are made, and the model does not prove that a hook's `TypeError` reaches the result, because that step is inside the encoder.
- `load` is left out: it reads a file handle (I/O).
- The numeric values of `OPT_NON_STR_KEYS`, `OPT_SORT_KEYS` and `OPT_INDENT_2` are orjson's. They are three distinct abstract flags here.
- `Seq`, `CDSFeature` and `NRPSPKSQualifier.Domain` are not part of this model. They appear only as the values they supply: `str(obj)`, the name and coordinates, the translation and `get_name()`. The `str()`/`int()` coercions are not modelled, because the inputs already have those types.
- A `to_json` or `__json__` method that raises is not modelled. The hook model sees only the value the method returns.
- Behaviour `JSONBase` inherits from `dict` (`keys`, `__iter__`, `__contains__`, the never-filled dict storage) is left out. Which view the encoder uses depends on orjson.
- `Json.JsonBase.GetItem`: looks only at instance attributes. Python's `getattr` also finds class attributes and methods (`obj["items"]`) and `_keys`; the model does not.
- Aliasing: the `predictions` list is stored by reference, and `items()` hands out the same `domains` list object that `add_domain` later appends to. The model copies values, so a mutation seen through another reference is not modelled.
- `items()` and `values()` are lazy generators. The model gives the whole list, or the error that a full iteration reaches; a consumer that stops early is not modelled.
- `Json.JsonBase.AddDomain`: its parameter is a `JsonBase`, so arguments that are not views at all (`add_domain(None)`, a plain dict) cannot be expressed. In Python these fail the same `assert`; the model covers only views of the wrong class.
- `add_domain` relies on `assert`, which `python -O` removes. The model assumes assertions are enabled.
- The module-level `JSONBase` type alias (json.py line 22), which the class of the same name later rebinds, is a typing matter and is not modelled.
- `ClusterClass.DictOf`: a Dafny `map` has no order, so the insertion order a Python dict keeps for its keys is not modelled. Nothing in this code iterates the table.
- There is no concurrency in this code, and no floating-point values reach the model.
