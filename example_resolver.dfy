/** Choosing the example to show from the page's `example` and `file`
    query parameters (src/App.tsx, `resolveExampleId` and the allow-list
    check that initialises the selection). The parameters arrive already
    decoded; `None` is a parameter that is not in the query string. */
module ExampleResolver {
  import opened Wrappers
  import opened Strings

  const SearchTermPredictionId := "search-term-prediction"
  const ProductSearchId := "product-search"

  /** The id used when nothing else applies. */
  const DefaultExampleId := SearchTermPredictionId

  /** One entry of the example selector. The source names the second
      field `label`, which is a reserved word in Dafny; `title` is that
      field. */
  datatype ExampleOption = ExampleOption(id: string, title: string)

  /** The allow-list, in selector order. */
  const ExampleOptions: seq<ExampleOption> := [
    ExampleOption(SearchTermPredictionId, "Search Term Prediction"),
    ExampleOption(ProductSearchId, "Product Search")
  ]

  /** True when some option carries `id`. */
  predicate IsOfferedIn(options: seq<ExampleOption>, id: string)
  {
    exists i :: 0 <= i < |options| && options[i].id == id
  }

  /** `fileParam.split('/').pop()`: the text after the last `/`. */
  function LastSegment(path: string): string
  {
    var parts := Split(path, '/');
    parts[|parts| - 1]
  }

  /** Where the pattern `/\.[^.]+$/` matches in `s`: a dot, followed by one
      or more characters none of which is a dot, up to the end of `s`. */
  predicate ExtensionAt(s: string, i: int)
    requires 0 <= i < |s|
  {
    s[i] == '.' && i + 1 < |s| && forall j :: i < j < |s| ==> s[j] != '.'
  }

  /** `segment.replace(/\.[^.]+$/, '')`: the regular-expression replacement,
      written out. The result is the text before the match if there is
      one, and the segment unchanged otherwise. */
  function StripExtension(segment: string): (r: string)
    ensures forall i :: 0 <= i < |segment| && ExtensionAt(segment, i) ==> r == segment[..i]
    ensures (forall i :: 0 <= i < |segment| ==> !ExtensionAt(segment, i)) ==> r == segment
  {
    match LastIndexOf(segment, '.')
    case Some(i) =>
      if i + 1 < |segment| then assert ExtensionAt(segment, i); segment[..i] else segment
    case None => segment
  }

  /** `resolveExampleId()`, with the query string already parsed. */
  function ResolveExampleId(example: Option<string>, file: Option<string>): (r: string)
    ensures IsNonEmpty(example) ==> r == example.value
    ensures !IsNonEmpty(example) && !IsNonEmpty(file) ==> r == DefaultExampleId
  {
    if IsNonEmpty(example) then example.value
    else if IsNonEmpty(file) then
      var decoded := LastSegment(file.value);
      if decoded != "" then StripExtension(decoded) else DefaultExampleId
    else DefaultExampleId
  }

  /** The allow-list check: an offered id is kept, anything else becomes the default. */
  function ClampToOptions(resolved: string): (r: string)
    ensures IsOfferedIn(ExampleOptions, r)
    ensures r == resolved <==> IsOfferedIn(ExampleOptions, resolved)
    ensures r != resolved ==> r == DefaultExampleId
  {
    if HasOption(ExampleOptions, resolved) then resolved else DefaultExampleId
  }

  /** The allow-list's `some` test, walked from the front. */
  function HasOption(options: seq<ExampleOption>, id: string): (b: bool)
    ensures b <==> IsOfferedIn(options, id)
  {
    if |options| == 0 then false
    else options[0].id == id || HasOption(options[1..], id)
  }

  /** The example selected when the page loads. */
  function InitialExampleId(example: Option<string>, file: Option<string>): (r: string)
    ensures r == SearchTermPredictionId || r == ProductSearchId
    ensures IsOfferedIn(ExampleOptions, ResolveExampleId(example, file)) ==> r == ResolveExampleId(example, file)
  {
    ClampToOptions(ResolveExampleId(example, file))
  }

  /** The last segment is the longest suffix without a `/`: it is the
      whole path, or it follows a `/`. */
  lemma LastSegmentIsFinalComponent(path: string)
    ensures var seg := LastSegment(path);
      '/' !in seg && |seg| <= |path| && path[|path| - |seg|..] == seg &&
      (|seg| == |path| || path[|path| - |seg| - 1] == '/')
  {
    var parts := Split(path, '/');
    var n := |parts|;
    var seg := parts[n - 1];
    assert '/' !in seg;
    JoinSplit(path, '/');
    if n > 1 {
      var init := parts[..n - 1];
      assert parts == init + [seg];
      JoinSnoc(init, seg, '/');
      var front := Join(init, '/');
      assert path == front + ['/'] + seg;
      assert path[|front| + 1..] == seg;
      assert path[|front|] == '/';
    } else {
      assert parts == [seg];
      assert path == seg;
    }
  }

  /** A path made of a directory ending in `/` (or none) and a name without
      `/` has that name as its last segment. */
  lemma LastSegmentOfPath(dir: string, name: string)
    requires dir == "" || dir[|dir| - 1] == '/'
    requires '/' !in name
    ensures LastSegment(dir + name) == name
  {
    SplitWithoutSeparator(name, '/');
    if dir != "" {
      var d := dir[..|dir| - 1];
      assert dir == d + ['/'];
      assert dir + name == d + ['/'] + name;
      SplitAround(d, name, '/');
      var parts := Split(d, '/') + [name];
      assert Split(dir + name, '/') == parts;
      assert parts[|parts| - 1] == name;
    } else {
      assert dir + name == name;
    }
  }

  /** An empty `example` parameter counts as absent and resolution falls
      through to `file`. */
  lemma EmptyExampleFallsThrough(file: Option<string>)
    ensures ResolveExampleId(Some(""), file) == ResolveExampleId(None, file)
  {
  }

  /** Without a usable `example`, a `file` path `dir/stem.ext` resolves to
      `stem`: the last segment with its final extension removed. */
  lemma {:induction false} ResolveFromFile(example: Option<string>, dir: string, stem: string, ext: string)
    requires !IsNonEmpty(example)
    requires dir == "" || dir[|dir| - 1] == '/'
    requires '/' !in stem && '/' !in ext && '.' !in ext && ext != ""
    ensures ResolveExampleId(example, Some(dir + stem + "." + ext)) == stem
  {
    var name := stem + "." + ext;
    assert dir + stem + "." + ext == dir + name;
    LastSegmentOfPath(dir, name);
    assert ExtensionAt(name, |stem|);
    assert name[..|stem|] == stem;
  }

  /** Without a usable `example`, a `file` path whose last segment has no
      dot resolves to that segment unchanged. */
  lemma {:induction false} ResolveFromFileWithoutExtension(example: Option<string>, dir: string, name: string)
    requires !IsNonEmpty(example)
    requires dir == "" || dir[|dir| - 1] == '/'
    requires '/' !in name && '.' !in name && name != ""
    ensures ResolveExampleId(example, Some(dir + name)) == name
  {
    LastSegmentOfPath(dir, name);
  }

  /** Without a usable `example`, a `file` path ending in `/` has an empty
      last segment and resolves to the default. */
  lemma {:induction false} TrailingSlashGivesDefault(example: Option<string>, dir: string)
    requires !IsNonEmpty(example)
    ensures ResolveExampleId(example, Some(dir + "/")) == DefaultExampleId
  {
    assert dir + "/" == dir + ['/'] + "";
    SplitAround(dir, "", '/');
  }

  /** The extension cut removes only the final `.ext`; a segment ending in
      `.` keeps it, and a dotfile becomes empty. */
  lemma StripExtensionEdgeCases()
    ensures StripExtension("a.b.ts") == "a.b"
    ensures StripExtension("search-term-prediction.ts") == "search-term-prediction"
    ensures StripExtension("a.") == "a."
    ensures StripExtension(".ts") == ""
    ensures StripExtension("product-search") == "product-search"
  {
    assert ExtensionAt("a.b.ts", 3);
    assert ExtensionAt("search-term-prediction.ts", 22);
    assert ExtensionAt(".ts", 0);
  }

  /** A dotfile name resolves to the empty id, which the allow-list then
      replaces by the default. */
  lemma DotfileResolvesToDefaultSelection(dir: string, ext: string)
    requires dir == "" || dir[|dir| - 1] == '/'
    requires '/' !in ext && '.' !in ext && ext != ""
    ensures ResolveExampleId(None, Some(dir + "." + ext)) == ""
    ensures InitialExampleId(None, Some(dir + "." + ext)) == DefaultExampleId
  {
    ResolveFromFile(None, dir, "", ext);
    assert dir + "" + "." + ext == dir + "." + ext;
    assert !IsOfferedIn(ExampleOptions, "");
  }

  /** An offered `example` parameter is selected as given; any other
      non-empty one selects the default. */
  lemma ExampleParamSelection(example: string, file: Option<string>)
    requires example != ""
    ensures IsOfferedIn(ExampleOptions, example) ==> InitialExampleId(Some(example), file) == example
    ensures !IsOfferedIn(ExampleOptions, example) ==> InitialExampleId(Some(example), file) == DefaultExampleId
  {
  }
}
