# Argument-schema index builder (deepmodeling/args `generator.py`)

`generator.py` collects the argument schemas of DeePMD-kit, DP-GEN and
DPDispatcher. It writes each schema to `<key>.json` and builds an index
`args`: a dictionary from each key to a record with three parts. The first is
a display name `"<name> v<version>"`. The second is the file name
`<key>.json`. The third, present only when the caller gave a list of
examples, is an `examples` list. Each example keeps its `name`, and its
`file` becomes a jsDelivr CDN address. The module body fills `args` with a
fixed sequence of five `add_parameter` calls.

This project is a Dafny model of that builder:

- `wrappers.dfy` (`Wrappers`): the `Option` datatype.
- `format.dfy` (`PyFormat`): the part of Python's `str.format` that the two
  format calls of `generator.py` use. Fields are automatically numbered
  `{}`, `{{`/`}}` are escapes, and other braces or missing arguments are
  errors. General lemmas show that literal text is copied and that fields
  take their arguments in order.
- `index.dfy` (`Index`): the pure part. `JsdelivrUrl`, the display name, the
  examples list (`ExampleLinks` as a reference definition, `BuildExamples` as
  the source's append loop), the record `IndexRecord`, and the index as a
  fold `Fold` of entries into a `map`. The fold's lemmas cover key sets, last
  write wins, and keys left alone.
- `generator.dfy` (`Generator`): the module state. The class `Builder` has the
  dictionary `args` and an abstract output directory `files`, which maps a
  file name to the schema object written there. `AddParameter` updates both
  in place. `Generate` is the module body's five calls, proved equal to the
  fold of the five entries. `ModuleIndexKeys`, `ModuleIndexNames` and
  `ModuleIndexExamples` pin down the resulting index.

Python dictionaries given as examples are `map<string, string>`. Reading a
missing `name` or `file` raises `KeyError`, and the model returns that as
`Err(KeyError(k))`. The `name` field is read before `file`, so the model
does the same. Such an error comes after `<key>.json` has been written and
before `args` changes. `AddParameter` keeps that order: the file is in
`files`, and `args` is unchanged.

The schema object (`dargs.Argument`, or a tuple of them) is the type
parameter `A`. Package versions and schema objects come from the external
packages, so they are parameters of `Generate`.

`jsdelivr_url` hardcodes the `cdn.jsdelivr.net` host, and the model does the
same. A repeated key silently overwrites the earlier record, and the model
proves exactly that (`FoldLastWriteWins`, `FoldOverwrites`,
`Builder.AddParameter`).

## Model

| member | source | states |
|---|---|---|
| `PyFormat.Format` | generator.py:18 | a template without braces formats to itself (the subset of `str.format` used here and at line 27) |
| `PyFormat.FormatLiteral` | generator.py:18 | formatting copies text that holds no brace unchanged |
| `PyFormat.FormatTwoFields` | generator.py:27 | a template with two `{}` fields between brace-free texts takes its two arguments in order |
| `PyFormat.FormatThreeFields` | generator.py:18 | a template with three `{}` fields between brace-free texts takes its three arguments in order |
| `Index.JsdelivrUrl` | generator.py:17-18 | the link starts with `https://cdn.jsdelivr.net/gh/`, ends with the file path, and is exactly two characters (`@` and `/`) longer than the prefix, repo, version and file together |
| `Index.JsdelivrUrlFormats` | generator.py:17-18 | `jsdelivr_url(repo, version, file)` is the Python formatting of `"https://cdn.jsdelivr.net/gh/{}@{}/{}"`, which equals `"https://cdn.jsdelivr.net/gh/" + repo + "@" + version + "/" + file` |
| `Index.DisplayName` | generator.py:27 | the record name is the package name, then `" v"`, then the version |
| `Index.DisplayNameFormats` | generator.py:27 | the record name, `"{} v{}".format(name, version)`, equals `name + " v" + version` |
| `Index.LinkOf` | generator.py:33-36 | one example yields a link exactly when it has both `name` and `file`; the link keeps the example's `name`; otherwise the error is the `KeyError` for the first missing field |
| `Index.ExampleLinks` | generator.py:30-37 | a built examples list has one link per input example |
| `Index.ExampleLinksSucceeds` | generator.py:30-37 | the examples list is built without error exactly when every input example has both a `name` and a `file` key |
| `Index.ExampleLinksElements` | generator.py:30-37 | a built examples list has the input's length and order; element i has the i-th `name` and the link made from the entry's repo, the entry's version and the i-th `file` |
| `Index.ExampleLinksError` | generator.py:31-36 | a failed list raises the `KeyError` of the first malformed example, naming `name` if it is missing and `file` otherwise |
| `Index.ExampleLinksPrefixError` | generator.py:31-37 | an error in a prefix of the examples aborts the whole list with that same error |
| `Index.ExampleLinksReadsNameAndFileOnly` | generator.py:33-36 | two example lists that agree on every `name` and `file` give the same result, whatever other fields they hold |
| `Index.BuildExamples` | generator.py:30-37 | the append loop's result equals the reference examples list `ExampleLinks`, including the error it raises |
| `Index.IndexRecord` | generator.py:23-38 | the record has `fn == key + ".json"` and `name == name + " v" + version`; it fails only on a malformed example list; it has an `examples` field exactly when examples were given, and that field is the list of links built from them; an empty list gives a present, empty `examples` |
| `Index.Fold` | generator.py:39 | a successful run of registrations never removes a key already in the index |
| `Index.FoldKeys` | generator.py:39 | a run of registrations fails exactly when some entry fails; otherwise the index's keys are the start keys plus exactly the entries' keys |
| `Index.FoldLastWriteWins` | generator.py:39 | the record under a key is the one built by the last entry with that key |
| `Index.FoldUntouched` | generator.py:39 | a key that no entry names keeps its earlier presence and record |
| `Index.FoldOverwrites` | generator.py:39 | registering a key twice gives the same index as registering only the second entry |
| `Generator.Builder.constructor` | generator.py:12-15 | `args` starts empty; the output directory is created if absent and otherwise kept, so it starts out holding the files already there |
| `Generator.Builder.AddParameter` | generator.py:21-39 | writes the schema to `<key>.json` first. On success `args` becomes the old `args` with `key` mapped to the new record, and every other key unchanged. On a `KeyError`, `args` is unchanged. Every record's `fn` stays a written file |
| `Generator.DeepmdExamples` | generator.py:54-91 | the DeePMD-kit entry lists nine examples, each with `name` and `file` |
| `Generator.ModuleEntries` | generator.py:43-126 | the module body makes five calls under pairwise distinct keys, and only the first passes examples |
| `Generator.ModuleEntriesSucceed` | generator.py:43-126 | none of the module body's five calls raises |
| `Generator.FoldFive` | generator.py:43-126 | five successful registrations in a row give the old index updated with the five records in call order |
| `Generator.ModuleIndexKeys` | generator.py:43-126 | after the module body, the keys are exactly `deepmd-kit`, `dpgen`, `dpdispatcher-machine`, `dpdispatcher-resources` and `dpdispatcher-task`; each `fn` is `<key>.json`; only `deepmd-kit` has `examples` |
| `Generator.ModuleIndexNames` | generator.py:43-126 | after the module body, each record's name is the package's display name plus its version |
| `Generator.ModuleIndexExamples` | generator.py:43-126 | after the module body, the `deepmd-kit` record lists its nine examples in the listed order, each with its name and the CDN link of its file |
| `Generator.Generate` | generator.py:43-126 | the five in-place calls leave `args` equal to the fold of the five entries. They leave the output directory as it was before the run, updated with the five `<key>.json` files, each holding its schema object; files already there under other names survive; every referenced `fn` exists |

## Left out

- Serialising the schema objects with `json.dump(..., cls=ArgumentEncoder)`. The encoder is foreign code over an opaque `dargs.Argument` tree, so the model stores the schema object itself under the file name (generator.py:24-25).
- Writing `args.json` (generator.py:129-130). `Generate` returns the final `args` map instead. The JSON text, its formatting and the key order of Python's insertion-ordered dictionaries are not modelled.
- Printing the output directory's listing (generator.py:133). This is I/O with no effect on the index. Creating the directory is modelled only by its effect: the builder starts from whatever files are already there.
- The calls into `deepmd`, `dpgen` and `dpdispatcher` for schemas and `__version__` strings (generator.py:4-9, 47-52, 98-99, 107-124). They are black-box providers, and their results are parameters of `Generate`.
- `PyFormat.Format` covers only automatically numbered `{}` fields and the `{{`/`}}` escapes. It treats named and numbered fields and format specs as errors, since `generator.py` uses none of them. Arguments are strings, since every value formatted here is one.
- Example fields are modelled as strings, since the source only uses string values. A non-string `name` would be copied as is by Python.
- An exception from the encoder or the filesystem aborts the Python run. The model has no such failures. The only error it models is the `KeyError` of a malformed example.
- A key named `args` would have its `args.json` schema file overwritten by the index file at the end. This cannot happen with the five fixed keys and is not modelled.
