/**
 The index records of generator.py: the CDN link builder, the per-entry
 record (display name, JSON file name, optional example links) and the
 index as a fold of entries into a finite map, in which a repeated key
 keeps the record of its last entry.
 */
module Index {

  import opened Wrappers
  import opened PyFormat

  /** The exception the builder can raise: a `KeyError` naming the missing dictionary key. */
  datatype Error = KeyError(key: string)

  datatype Result<+T> = Ok(value: T) | Err(error: Error)

  /** One example as the caller writes it: a dictionary of string fields. */
  type InputExample = map<string, string>

  /** One example of the index: `{"name": ..., "url": ...}`. */
  datatype ExampleLink = ExampleLink(name: string, url: string)

  /**
   The index record `{"name": ..., "fn": ..., "examples": ...}`; `examples` is
   `None` when the dictionary has no `examples` key at all.
   */
  datatype Record = Record(name: string, fn: string, examples: Option<seq<ExampleLink>>)
  {
    /** The keys of the record as a JSON object. */
    function Fields(): set<string>
    {
      {"name", "fn"} + (if examples.Some? then {"examples"} else {})
    }
  }

  /** One call of `add_parameter`, with the schema object of type `A` left opaque. */
  datatype Entry<A> = Entry(key: string, name: string, argument: A, version: string,
                            repo: string, examples: Option<seq<InputExample>>)

  const UrlTemplate: string := "https://cdn.jsdelivr.net/gh/{}@{}/{}"
  const UrlPrefix: string := "https://cdn.jsdelivr.net/gh/"
  const NameTemplate: string := "{} v{}"

  /** `jsdelivr_url`: the CDN address of `file` in `repo` at tag `version`. */
  function JsdelivrUrl(repo: string, version: string, file: string): (url: string)
    ensures |url| == |UrlPrefix| + |repo| + |version| + |file| + 2
    ensures url[..|UrlPrefix|] == UrlPrefix
    ensures url[|url| - |file|..] == file
  {
    UrlPrefix + repo + "@" + version + "/" + file
  }

  /** `jsdelivr_url` is Python's formatting of its template with `repo`, `version` and `file`, in that order. */
  lemma JsdelivrUrlFormats(repo: string, version: string, file: string)
    ensures Format(UrlTemplate, [repo, version, file]) == Some(JsdelivrUrl(repo, version, file))
    ensures JsdelivrUrl(repo, version, file)
         == "https://cdn.jsdelivr.net/gh/" + repo + "@" + version + "/" + file
  {
    assert UrlTemplate == UrlPrefix + "{}" + "@" + "{}" + "/" + "{}";
    assert NoBraces(UrlPrefix) && NoBraces("@") && NoBraces("/");
    FormatThreeFields(UrlPrefix, "@", "/", repo, version, file);
  }

  /** The display name of an entry, `"<name> v<version>"`. */
  function DisplayName(name: string, version: string): (s: string)
    ensures |s| == |name| + 2 + |version|
    ensures s[..|name|] == name && s[|name|..|name| + 2] == " v" && s[|name| + 2..] == version
  {
    name + " v" + version
  }

  /** The display name is Python's formatting of `"{} v{}"` with `name` and `version`. */
  lemma DisplayNameFormats(name: string, version: string)
    ensures Format(NameTemplate, [name, version]) == Some(DisplayName(name, version))
  {
    assert NameTemplate == [] + "{}" + " v" + "{}";
    assert NoBraces([]) && NoBraces(" v");
    FormatTwoFields([], " v", name, version);
    assert [] + name + " v" + version == name + " v" + version;
  }

  /** True when `example["name"]` and `example["file"]` can both be read. */
  predicate HasFields(example: InputExample)
  {
    "name" in example && "file" in example
  }

  /** The `KeyError` the first missing field raises; `name` is read before `file`. */
  function MissingField(example: InputExample): Error
  {
    if "name" !in example then KeyError("name") else KeyError("file")
  }

  /** The index form of one example, or the error reading its fields raises. */
  function LinkOf(repo: string, version: string, example: InputExample): (r: Result<ExampleLink>)
    ensures r.Ok? <==> HasFields(example)
    ensures r.Err? ==> r.error == MissingField(example)
    ensures r.Ok? ==> r.value.name == example["name"]
  {
    if !HasFields(example) then Err(MissingField(example))
    else Ok(ExampleLink(example["name"], JsdelivrUrl(repo, version, example["file"])))
  }

  /** The examples list built in order; the first malformed example aborts it. */
  function ExampleLinks(repo: string, version: string, examples: seq<InputExample>): (r: Result<seq<ExampleLink>>)
    ensures r.Ok? ==> |r.value| == |examples|
    decreases |examples|
  {
    if examples == [] then Ok([])
    else
      match ExampleLinks(repo, version, examples[..|examples| - 1])
      case Err(e) => Err(e)
      case Ok(prefix) =>
        match LinkOf(repo, version, examples[|examples| - 1])
        case Err(e) => Err(e)
        case Ok(link) => Ok(prefix + [link])
  }

  /** Position `i` holds the first example that lacks a field. */
  predicate FirstMalformed(examples: seq<InputExample>, i: int)
  {
    && 0 <= i < |examples|
    && !HasFields(examples[i])
    && forall j :: 0 <= j < i ==> HasFields(examples[j])
  }

  /** The examples list succeeds exactly when every example has a `name` and a `file`. */
  lemma {:induction false} ExampleLinksSucceeds(repo: string, version: string, examples: seq<InputExample>)
    ensures ExampleLinks(repo, version, examples).Ok?
        <==> forall i :: 0 <= i < |examples| ==> HasFields(examples[i])
  {
    if examples != [] {
      var n := |examples| - 1;
      var init := examples[..n];
      ExampleLinksSucceeds(repo, version, init);
      assert forall i :: 0 <= i < n ==> init[i] == examples[i];
    }
  }

  /**
   When every example has a `name` and a `file`, the examples list succeeds
   with the input's length and order: element `i` carries the `i`-th name and
   the CDN link of the `i`-th file.
   */
  lemma {:induction false} ExampleLinksElements(repo: string, version: string, examples: seq<InputExample>)
    requires forall i :: 0 <= i < |examples| ==> HasFields(examples[i])
    ensures ExampleLinks(repo, version, examples).Ok?
    ensures var links := ExampleLinks(repo, version, examples).value;
            && |links| == |examples|
            && forall i :: 0 <= i < |examples| ==>
                 HasFields(examples[i]) &&
                 links[i] == ExampleLink(examples[i]["name"], JsdelivrUrl(repo, version, examples[i]["file"]))
  {
    if examples != [] {
      var n := |examples| - 1;
      var init := examples[..n];
      assert forall i :: 0 <= i < n ==> init[i] == examples[i];
      ExampleLinksElements(repo, version, init);
      var prefix := ExampleLinks(repo, version, init).value;
      var last := LinkOf(repo, version, examples[n]);
      var links := prefix + [last.value];
      assert ExampleLinks(repo, version, examples).value == links;
      forall i | 0 <= i < |examples|
        ensures HasFields(examples[i]) && links[i] == ExampleLink(examples[i]["name"], JsdelivrUrl(repo, version, examples[i]["file"]))
      {
        if i < n {
          assert links[i] == prefix[i] && init[i] == examples[i];
        }
      }
    }
  }

  /** The error of a failed examples list is the one its first malformed example raises. */
  lemma {:induction false} ExampleLinksError(repo: string, version: string, examples: seq<InputExample>)
    requires ExampleLinks(repo, version, examples).Err?
    ensures exists i :: FirstMalformed(examples, i)
                     && ExampleLinks(repo, version, examples).error == MissingField(examples[i])
  {
    var n := |examples| - 1;
    var init := examples[..n];
    assert forall i :: 0 <= i < n ==> init[i] == examples[i];
    if ExampleLinks(repo, version, init).Err? {
      ExampleLinksError(repo, version, init);
      var i :| FirstMalformed(init, i) && ExampleLinks(repo, version, init).error == MissingField(init[i]);
      assert FirstMalformed(examples, i);
    } else {
      ExampleLinksSucceeds(repo, version, init);
      assert FirstMalformed(examples, n);
    }
  }

  /** Once a prefix of the examples fails, the whole list fails with the same error. */
  lemma {:induction false} ExampleLinksPrefixError(repo: string, version: string,
                                                   examples: seq<InputExample>, k: nat)
    requires k <= |examples|
    requires ExampleLinks(repo, version, examples[..k]).Err?
    ensures ExampleLinks(repo, version, examples) == ExampleLinks(repo, version, examples[..k])
  {
    if k < |examples| {
      var init := examples[..|examples| - 1];
      assert init[..k] == examples[..k];
      ExampleLinksPrefixError(repo, version, init, k);
    } else {
      assert examples[..k] == examples;
    }
  }

  /** Two examples agree on everything the builder reads: their `name` and `file` fields. */
  predicate SameNameAndFile(x: InputExample, y: InputExample)
  {
    && ("name" in x <==> "name" in y) && ("name" in x ==> x["name"] == y["name"])
    && ("file" in x <==> "file" in y) && ("file" in x ==> x["file"] == y["file"])
  }

  /** Fields other than `name` and `file` have no influence on the examples list. */
  lemma {:induction false} ExampleLinksReadsNameAndFileOnly(repo: string, version: string,
                                                            xs: seq<InputExample>, ys: seq<InputExample>)
    requires |xs| == |ys|
    requires forall i :: 0 <= i < |xs| ==> SameNameAndFile(xs[i], ys[i])
    ensures ExampleLinks(repo, version, xs) == ExampleLinks(repo, version, ys)
  {
    if xs != [] {
      var n := |xs| - 1;
      assert forall i :: 0 <= i < n ==> xs[..n][i] == xs[i] && ys[..n][i] == ys[i];
      ExampleLinksReadsNameAndFileOnly(repo, version, xs[..n], ys[..n]);
      assert SameNameAndFile(xs[n], ys[n]);
      assert LinkOf(repo, version, xs[n]) == LinkOf(repo, version, ys[n]);
    }
  }

  /**
   The loop of `add_parameter` that builds the examples list, appending one
   link per input example.
   */
  method BuildExamples(repo: string, version: string, examples: seq<InputExample>)
    returns (r: Result<seq<ExampleLink>>)
    ensures r == ExampleLinks(repo, version, examples)
  {
    var links: seq<ExampleLink> := [];
    var i := 0;
    while i < |examples|
      invariant 0 <= i <= |examples|
      invariant ExampleLinks(repo, version, examples[..i]) == Ok(links)
    {
      var example := examples[i];
      assert examples[..i + 1][..i] == examples[..i];
      if "name" !in example {
        ExampleLinksPrefixError(repo, version, examples, i + 1);
        return Err(KeyError("name"));
      }
      if "file" !in example {
        ExampleLinksPrefixError(repo, version, examples, i + 1);
        return Err(KeyError("file"));
      }
      links := links + [ExampleLink(example["name"], JsdelivrUrl(repo, version, example["file"]))];
      i := i + 1;
    }
    assert examples[..i] == examples;
    return Ok(links);
  }

  /**
   The record `add_parameter` stores under `key`, or the error it raises.
   The record is named `"<name> v<version>"`, points at `<key>.json`, and has
   an `examples` field exactly when an examples list was given.
   */
  function IndexRecord(key: string, name: string, version: string, repo: string,
                       examples: Option<seq<InputExample>>): (r: Result<Record>)
    ensures r.Ok? <==> examples.None? || ExampleLinks(repo, version, examples.value).Ok?
    ensures r.Ok? ==> r.value.fn == key + ".json" && r.value.name == name + " v" + version
    ensures r.Ok? ==> ("examples" in r.value.Fields() <==> examples.Some?)
    ensures examples == Some([]) ==> r.Ok? && r.value.examples == Some([])
    ensures r.Ok? && examples.Some? ==> r.value.examples == Some(ExampleLinks(repo, version, examples.value).value)
  {
    var fn := key + ".json";
    var display := DisplayName(name, version);
    match examples
    case None => Ok(Record(display, fn, None))
    case Some(xs) =>
      match ExampleLinks(repo, version, xs)
      case Err(e) => Err(e)
      case Ok(links) => Ok(Record(display, fn, Some(links)))
  }

  function EntryRecord<A>(e: Entry<A>): Result<Record>
  {
    IndexRecord(e.key, e.name, e.version, e.repo, e.examples)
  }

  /** The index after registering `entries` in order on top of `index`; the first failure aborts. */
  function Fold<A>(index: map<string, Record>, entries: seq<Entry<A>>): (r: Result<map<string, Record>>)
    ensures r.Ok? ==> index.Keys <= r.value.Keys
    decreases |entries|
  {
    if entries == [] then Ok(index)
    else
      match EntryRecord(entries[0])
      case Err(e) => Err(e)
      case Ok(r) => Fold(index[entries[0].key := r], entries[1..])
  }

  function KeysOf<A>(entries: seq<Entry<A>>): set<string>
  {
    set i | 0 <= i < |entries| :: entries[i].key
  }

  /** A run fails exactly when some entry's record fails; otherwise it adds exactly the entries' keys. */
  lemma {:induction false} FoldKeys<A>(index: map<string, Record>, entries: seq<Entry<A>>)
    ensures Fold(index, entries).Ok? <==> forall i :: 0 <= i < |entries| ==> EntryRecord(entries[i]).Ok?
    ensures Fold(index, entries).Ok? ==> Fold(index, entries).value.Keys == index.Keys + KeysOf(entries)
    decreases |entries|
  {
    if entries != [] {
      var rest := entries[1..];
      assert forall i :: 0 <= i < |rest| ==> rest[i] == entries[i + 1];
      assert forall i :: 1 <= i < |entries| ==> entries[i] == rest[i - 1];
      assert KeysOf(entries) == {entries[0].key} + KeysOf(rest) by {
        forall k | k in KeysOf(entries) ensures k in {entries[0].key} + KeysOf(rest) {
          var i :| 0 <= i < |entries| && entries[i].key == k;
          if i > 0 { assert rest[i - 1].key == k; }
        }
      }
      if EntryRecord(entries[0]).Ok? {
        FoldKeys(index[entries[0].key := EntryRecord(entries[0]).value], rest);
      }
    }
  }

  /** Last write wins: the key of the last entry that names it holds that entry's record. */
  lemma {:induction false} FoldLastWriteWins<A>(index: map<string, Record>, entries: seq<Entry<A>>, i: nat)
    requires Fold(index, entries).Ok?
    requires i < |entries|
    requires forall j :: i < j < |entries| ==> entries[j].key != entries[i].key
    ensures EntryRecord(entries[i]).Ok?
    ensures var out := Fold(index, entries).value;
            entries[i].key in out && out[entries[i].key] == EntryRecord(entries[i]).value
    decreases |entries|
  {
    var rest := entries[1..];
    var next := index[entries[0].key := EntryRecord(entries[0]).value];
    if i == 0 {
      assert forall j :: 0 <= j < |rest| ==> rest[j].key != entries[0].key by {
        forall j | 0 <= j < |rest| ensures rest[j].key != entries[0].key {
          assert rest[j] == entries[j + 1];
        }
      }
      FoldUntouched(next, rest, entries[0].key);
    } else {
      assert forall j :: i - 1 < j < |rest| ==> rest[j].key != rest[i - 1].key by {
        forall j | i - 1 < j < |rest| ensures rest[j].key != rest[i - 1].key {
          assert rest[j] == entries[j + 1];
        }
      }
      FoldLastWriteWins(next, rest, i - 1);
      assert rest[i - 1] == entries[i];
    }
  }

  /** A key no entry names keeps whatever the starting index held for it. */
  lemma {:induction false} FoldUntouched<A>(index: map<string, Record>, entries: seq<Entry<A>>, k: string)
    requires Fold(index, entries).Ok?
    requires forall i :: 0 <= i < |entries| ==> entries[i].key != k
    ensures var out := Fold(index, entries).value;
            (k in out <==> k in index) && (k in index ==> out[k] == index[k])
    decreases |entries|
  {
    if entries != [] {
      var rest := entries[1..];
      assert forall i :: 0 <= i < |rest| ==> rest[i] == entries[i + 1];
      FoldUntouched(index[entries[0].key := EntryRecord(entries[0]).value], rest, k);
    }
  }

  /** Registering the same key twice leaves no trace of the first record. */
  lemma FoldOverwrites<A>(index: map<string, Record>, first: Entry<A>, second: Entry<A>)
    requires EntryRecord(first).Ok?
    requires first.key == second.key
    ensures Fold(index, [first, second]) == Fold(index, [second])
  {
    assert [first, second][1..] == [second];
    if EntryRecord(second).Ok? {
      var r := EntryRecord(first).value;
      assert index[first.key := r][second.key := EntryRecord(second).value]
          == index[second.key := EntryRecord(second).value];
    }
  }
}
