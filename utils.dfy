/**
 * The stylesheet loader-chain builder of `build/modules/utils.js`.
 *
 * For each stylesheet dialect the builder produces the chain of loaders the
 * bundler applies: the shared `css-loader` stage, an optional compiler
 * stage for the dialect, and then either the extraction wrapper or the
 * `vue-style-loader` / `postcss-loader` pair around them.
 */
module Utils {
  import opened Js

  const VueStyleLoader := "vue-style-loader"
  const CssLoaderName := "css-loader"
  const PostcssLoaderName := "postcss-loader"

  /**
   * The path helpers the module reads from its surroundings. `path.join`,
   * `path.posix.join` and the project root (`__dirname` + `'../..'`) are not
   * interpreted; they are given as parameters.
   */
  datatype Paths = Paths(
    projectRoot: string,
    buildAssetsSubDirectory: string,
    devAssetsSubDirectory: string,
    join: (string, string) -> string,
    posixJoin: (string, string) -> string)

  /** `resolve(dir)`: `dir` under the project root. */
  function Resolve(paths: Paths, dir: string): string {
    paths.join(paths.projectRoot, dir)
  }

  /** `assetsPath(p)`: `p` under the build or the dev assets sub-directory, chosen by `NODE_ENV`. */
  function AssetsPath(nodeEnv: string, paths: Paths, p: string): (r: string)
    ensures nodeEnv == "production" ==> r == paths.posixJoin(paths.buildAssetsSubDirectory, p)
    ensures nodeEnv != "production" ==> r == paths.posixJoin(paths.devAssetsSubDirectory, p)
  {
    var subDirectory :=
      if nodeEnv == "production" then paths.buildAssetsSubDirectory else paths.devAssetsSubDirectory;
    paths.posixJoin(subDirectory, p)
  }

  /** The options object `cssLoaders` and `styleLoaders` accept. */
  datatype StyleOptions = StyleOptions(sourceMap: JsValue, extract: JsValue)

  /** A loader in a chain: a bare loader name, or `{loader, options}`. */
  datatype Stage =
    | Named(name: string)
    | Configured(loader: string, options: map<string, JsValue>)

  /**
   * What `generateLoaders` returns: a flat chain, or the result of
   * `ExtractTextPlugin.extract({use, fallback})` kept as its two arguments.
   */
  datatype LoaderUse =
    | Chain(stages: seq<Stage>)
    | Extracted(use: seq<Stage>, fallback: string)

  /** One property of the object `cssLoaders` returns, in insertion order. */
  datatype Entry = Entry(key: string, use: LoaderUse)

  /** One `{test, use}` rule; the pattern is kept as the source text of the regular expression. */
  datatype Rule = Rule(test: string, use: LoaderUse)

  /** The arguments `cssLoaders` passes to `generateLoaders` for one dialect. */
  datatype Dialect = Dialect(key: string, loader: Option<string>, loaderOptions: map<string, JsValue>)

  const Dialects: seq<Dialect> := [
    Dialect("css", None, map[]),
    Dialect("postcss", None, map[]),
    Dialect("less", Some("less"), map[]),
    Dialect("sass", Some("sass"), map["indentedSyntax" := Bool(true)]),
    Dialect("scss", Some("sass"), map[]),
    Dialect("stylus", Some("stylus"), map[]),
    Dialect("styl", Some("stylus"), map[])
  ]

  /** The dialects that get a compiler stage. */
  const CompiledDialects: set<string> := {"less", "sass", "scss", "stylus", "styl"}

  function StageName(s: Stage): string {
    match s
    case Named(n) => n
    case Configured(l, _) => l
  }

  /** The stages of a chain, inside the extraction wrapper or not. */
  function Stages(u: LoaderUse): seq<Stage> {
    match u
    case Chain(s) => s
    case Extracted(s, _) => s
  }

  /** Where `css-loader` stands: after `vue-style-loader` in a flat chain, first when extracted. */
  function CssIndex(u: LoaderUse): nat {
    if u.Chain? then 1 else 0
  }

  /** A compiler stage sits right after `css-loader`, before `postcss-loader` when that is present. */
  predicate HasCompilerStage(u: LoaderUse) {
    |Stages(u)| == (if u.Chain? then 4 else 2)
  }

  function CompilerStageOf(u: LoaderUse): Option<Stage> {
    if HasCompilerStage(u) then Some(Stages(u)[CssIndex(u) + 1]) else None
  }

  /** `options = options || {}`: a missing options object behaves as the empty one. */
  function Normalize(options: Option<StyleOptions>): (o: StyleOptions)
    ensures options.None? ==> o.sourceMap == Undefined && !Truthy(o.extract)
    ensures options.Some? ==> o == options.value
  {
    match options
    case None => StyleOptions(Undefined, Undefined)
    case Some(o) => o
  }

  /** The shared `css-loader` descriptor. */
  function CssLoader(nodeEnv: string, o: StyleOptions): (s: Stage)
    ensures s.Configured? && s.loader == CssLoaderName
    ensures s.options.Keys == {"minimize", "sourceMap"}
    ensures s.options["minimize"] == Bool(true) <==> nodeEnv == "production"
    ensures s.options["minimize"] != Undefined
    ensures s.options["sourceMap"] == o.sourceMap
  {
    Configured(CssLoaderName, map["minimize" := Bool(nodeEnv == "production"), "sourceMap" := o.sourceMap])
  }

  /** The shared `postcss-loader` descriptor; its `sourceMap` is `options.sourceMap || false`. */
  function PostcssLoader(o: StyleOptions): (s: Stage)
    ensures s.Configured? && s.loader == PostcssLoaderName
    ensures s.options.Keys == {"sourceMap"}
    ensures Truthy(o.sourceMap) ==> s.options["sourceMap"] == o.sourceMap
    ensures !Truthy(o.sourceMap) ==> s.options["sourceMap"] == Bool(false)
  {
    Configured(PostcssLoaderName, map["sourceMap" := Or(o.sourceMap, Bool(false))])
  }

  /** The compiler stage: `loader + '-loader'` with `Object.assign({}, loaderOptions, {sourceMap})`. */
  function CompilerStage(o: StyleOptions, loader: string, loaderOptions: map<string, JsValue>): (s: Stage)
    ensures s.Configured? && s.loader == loader + "-loader"
    ensures s.options.Keys == loaderOptions.Keys + {"sourceMap"}
    ensures s.options["sourceMap"] == o.sourceMap
    ensures forall k :: k in loaderOptions && k != "sourceMap" ==> s.options[k] == loaderOptions[k]
  {
    Configured(loader + "-loader", loaderOptions["sourceMap" := o.sourceMap])
  }

  /** The chain `generateLoaders(loader, loaderOptions)` produces. */
  function DialectChain(nodeEnv: string, o: StyleOptions, loader: Option<string>,
                        loaderOptions: map<string, JsValue>): (r: LoaderUse)
    ensures r.Extracted? <==> Truthy(o.extract)
    ensures CssIndex(r) < |Stages(r)| && Stages(r)[CssIndex(r)] == CssLoader(nodeEnv, o)
    ensures HasCompilerStage(r) <==> TruthyString(loader)
    ensures TruthyString(loader) ==> CompilerStageOf(r) == Some(CompilerStage(o, loader.value, loaderOptions))
    ensures r.Chain? ==>
              |r.stages| == (if TruthyString(loader) then 4 else 3) &&
              r.stages[0] == Named(VueStyleLoader) &&
              r.stages[|r.stages| - 1] == PostcssLoader(o)
    ensures r.Extracted? ==>
              |r.use| == (if TruthyString(loader) then 2 else 1) &&
              r.fallback == VueStyleLoader
  {
    var core := [CssLoader(nodeEnv, o)] +
                (if TruthyString(loader) then [CompilerStage(o, loader.value, loaderOptions)] else []);
    if Truthy(o.extract) then Extracted(core, VueStyleLoader)
    else Chain([Named(VueStyleLoader)] + core + [PostcssLoader(o)])
  }

  /** `generateLoaders`: starts from `[cssLoader]` and pushes the stages the options call for. */
  method GenerateLoaders(nodeEnv: string, o: StyleOptions, loader: Option<string>,
                         loaderOptions: map<string, JsValue>) returns (r: LoaderUse)
    ensures r == DialectChain(nodeEnv, o, loader, loaderOptions)
  {
    var loaders := [CssLoader(nodeEnv, o)];
    if TruthyString(loader) {
      loaders := loaders + [CompilerStage(o, loader.value, loaderOptions)];
    }
    if Truthy(o.extract) {
      r := Extracted(loaders, VueStyleLoader);
    } else {
      loaders := loaders + [PostcssLoader(o)];
      r := Chain([Named(VueStyleLoader)] + loaders);
    }
  }

  /** The object `cssLoaders` returns, as its properties in insertion order. */
  function LoaderTable(nodeEnv: string, o: StyleOptions): (r: seq<Entry>)
    ensures |r| == |Dialects| == 7
    ensures forall i :: 0 <= i < |r| ==>
              r[i].key == Dialects[i].key &&
              r[i].use == DialectChain(nodeEnv, o, Dialects[i].loader, Dialects[i].loaderOptions)
  {
    seq(|Dialects|, i requires 0 <= i < |Dialects| =>
      Entry(Dialects[i].key, DialectChain(nodeEnv, o, Dialects[i].loader, Dialects[i].loaderOptions)))
  }

  /** `cssLoaders(options)`: one `generateLoaders` call per dialect. */
  method CssLoaders(nodeEnv: string, options: Option<StyleOptions>) returns (table: seq<Entry>)
    ensures table == LoaderTable(nodeEnv, Normalize(options))
  {
    var o := Normalize(options);
    var css := GenerateLoaders(nodeEnv, o, None, map[]);
    var postcss := GenerateLoaders(nodeEnv, o, None, map[]);
    var less := GenerateLoaders(nodeEnv, o, Some("less"), map[]);
    var sass := GenerateLoaders(nodeEnv, o, Some("sass"), map["indentedSyntax" := Bool(true)]);
    var scss := GenerateLoaders(nodeEnv, o, Some("sass"), map[]);
    var stylus := GenerateLoaders(nodeEnv, o, Some("stylus"), map[]);
    var styl := GenerateLoaders(nodeEnv, o, Some("stylus"), map[]);
    table := [Entry("css", css), Entry("postcss", postcss), Entry("less", less), Entry("sass", sass),
              Entry("scss", scss), Entry("stylus", stylus), Entry("styl", styl)];
  }

  /** The regular expression `new RegExp('\\.' + extension + '$')`, as its source text. */
  function ExtensionTest(extension: string): (t: string)
    ensures |t| == |extension| + 3 && t[..2] == "\\." && t[|t| - 1] == '$'
    ensures t[2..|t| - 1] == extension
  {
    "\\." + extension + "$"
  }

  /** One rule per property of the loader table, in the table's order. */
  function StyleRules(table: seq<Entry>): (r: seq<Rule>)
    ensures |r| == |table|
    ensures forall i :: 0 <= i < |r| ==> r[i].use == table[i].use
    ensures forall i :: 0 <= i < |r| ==> r[i].test == ExtensionTest(table[i].key)
  {
    seq(|table|, i requires 0 <= i < |table| => Rule(ExtensionTest(table[i].key), table[i].use))
  }

  /** `styleLoaders(options)`: walks the loader table and pushes one rule per dialect. */
  method StyleLoaders(nodeEnv: string, options: Option<StyleOptions>) returns (output: seq<Rule>)
    ensures output == StyleRules(LoaderTable(nodeEnv, Normalize(options)))
  {
    output := [];
    var loaders := CssLoaders(nodeEnv, options);
    var i := 0;
    while i < |loaders|
      invariant 0 <= i <= |loaders|
      invariant |output| == i
      invariant forall k :: 0 <= k < i ==> output[k] == Rule(ExtensionTest(loaders[k].key), loaders[k].use)
    {
      output := output + [Rule(ExtensionTest(loaders[i].key), loaders[i].use)];
      i := i + 1;
    }
  }

  function SourceMapOnly(o: StyleOptions): map<string, JsValue> {
    map["sourceMap" := o.sourceMap]
  }

  function IndentedSyntax(o: StyleOptions): map<string, JsValue> {
    map["indentedSyntax" := Bool(true), "sourceMap" := o.sourceMap]
  }

  /** A compiler stage is present exactly for less, sass, scss, stylus and styl. */
  lemma DialectHasCompiler(nodeEnv: string, o: StyleOptions, i: nat)
    requires i < 7
    ensures var e := LoaderTable(nodeEnv, o)[i];
      HasCompilerStage(e.use) <==> e.key in CompiledDialects
  {
    var d := Dialects[i];
    if i < 2 {
      assert d.loader == None && d.key in {"css", "postcss"};
      assert "css" !in CompiledDialects && "postcss" !in CompiledDialects;
    } else {
      assert d.loader.Some? && d.loader.value != "";
      assert d.key in CompiledDialects;
    }
  }

  /**
   * The compiler stage of each compiled dialect, with its options:
   * `sass` sets `indentedSyntax`, `scss` uses the same compiler without it.
   */
  lemma DialectCompilerStage(nodeEnv: string, o: StyleOptions, i: nat)
    requires 2 <= i < 7
    ensures var e := LoaderTable(nodeEnv, o)[i];
      && (e.key == "less" ==> CompilerStageOf(e.use) == Some(Configured("less-loader", SourceMapOnly(o))))
      && (e.key == "sass" ==> CompilerStageOf(e.use) == Some(Configured("sass-loader", IndentedSyntax(o))))
      && (e.key == "scss" ==> CompilerStageOf(e.use) == Some(Configured("sass-loader", SourceMapOnly(o))))
      && (e.key in {"stylus", "styl"} ==> CompilerStageOf(e.use) == Some(Configured("stylus-loader", SourceMapOnly(o))))
  {
    var e := LoaderTable(nodeEnv, o)[i];
    var d := Dialects[i];
    assert e.key == d.key && e.use == DialectChain(nodeEnv, o, d.loader, d.loaderOptions);
    assert CompilerStageOf(e.use) == Some(CompilerStage(o, d.loader.value, d.loaderOptions));
    if i == 2 {
      assert d == Dialect("less", Some("less"), map[]);
      assert "less" + "-loader" == "less-loader";
      assert map[]["sourceMap" := o.sourceMap] == SourceMapOnly(o);
    } else if i == 3 {
      assert d == Dialect("sass", Some("sass"), map["indentedSyntax" := Bool(true)]);
      assert "sass" + "-loader" == "sass-loader";
      assert d.loaderOptions["sourceMap" := o.sourceMap] == IndentedSyntax(o);
    } else if i == 4 {
      assert d == Dialect("scss", Some("sass"), map[]);
      assert "sass" + "-loader" == "sass-loader";
      assert map[]["sourceMap" := o.sourceMap] == SourceMapOnly(o);
    } else {
      assert d.loader == Some("stylus") && d.loaderOptions == map[] && d.key in {"stylus", "styl"};
      assert "stylus" + "-loader" == "stylus-loader";
      assert map[]["sourceMap" := o.sourceMap] == SourceMapOnly(o);
    }
  }

  /**
   * Without extraction, every chain starts with `vue-style-loader`, then the
   * shared `css-loader`, and ends with `postcss-loader`, which appear nowhere
   * else in it.
   */
  lemma InlineChains(nodeEnv: string, o: StyleOptions, i: nat)
    requires i < 7
    requires !Truthy(o.extract)
    ensures var u := LoaderTable(nodeEnv, o)[i].use;
      && u.Chain? && 3 <= |u.stages| <= 4
      && u.stages[0] == Named(VueStyleLoader)
      && u.stages[1] == CssLoader(nodeEnv, o)
      && u.stages[|u.stages| - 1] == PostcssLoader(o)
      && (forall k :: 0 < k < |u.stages| ==> StageName(u.stages[k]) != VueStyleLoader)
      && (forall k :: 0 <= k < |u.stages| - 1 ==> StageName(u.stages[k]) != PostcssLoaderName)
  {
    var d := Dialects[i];
    var u := LoaderTable(nodeEnv, o)[i].use;
    assert u == DialectChain(nodeEnv, o, d.loader, d.loaderOptions);
    if TruthyString(d.loader) {
      assert StageName(u.stages[2]) == d.loader.value + "-loader";
    }
  }

  /**
   * With extraction, every chain is the wrapper around `[css-loader, compiler?]`
   * with `vue-style-loader` as the fallback; neither `postcss-loader` nor
   * `vue-style-loader` is among the wrapped stages.
   */
  lemma ExtractedChains(nodeEnv: string, o: StyleOptions, i: nat)
    requires i < 7
    requires Truthy(o.extract)
    ensures var u := LoaderTable(nodeEnv, o)[i].use;
      && u.Extracted? && u.fallback == VueStyleLoader
      && 1 <= |u.use| <= 2
      && u.use[0] == CssLoader(nodeEnv, o)
      && (forall k :: 0 <= k < |u.use| ==> StageName(u.use[k]) !in {PostcssLoaderName, VueStyleLoader})
  {
    var d := Dialects[i];
    var u := LoaderTable(nodeEnv, o)[i].use;
    assert u == DialectChain(nodeEnv, o, d.loader, d.loaderOptions);
    if TruthyString(d.loader) {
      assert StageName(u.use[1]) == d.loader.value + "-loader";
    }
  }

  /**
   * `styleLoaders` gives seven rules, for css, postcss, less, sass, scss,
   * stylus and styl in that order; rule i matches `\.<ext_i>$` and uses what
   * `cssLoaders` gives for that dialect.
   */
  lemma StyleLoadersRules(nodeEnv: string, options: Option<StyleOptions>)
    ensures var rules := StyleRules(LoaderTable(nodeEnv, Normalize(options)));
      && |rules| == 7
      && rules[0].test == "\\.css$" && rules[1].test == "\\.postcss$"
      && rules[2].test == "\\.less$" && rules[3].test == "\\.sass$"
      && rules[4].test == "\\.scss$" && rules[5].test == "\\.stylus$"
      && rules[6].test == "\\.styl$"
      && forall i :: 0 <= i < 7 ==>
           rules[i].use == LoaderTable(nodeEnv, Normalize(options))[i].use
  {
    var table := LoaderTable(nodeEnv, Normalize(options));
    var rules := StyleRules(table);
    ExtensionTestLiterals();
    assert forall i :: 0 <= i < 7 ==> rules[i].test == ExtensionTest(Dialects[i].key);
  }

  lemma ExtensionTestLiterals()
    ensures ExtensionTest("css") == "\\.css$" && ExtensionTest("postcss") == "\\.postcss$"
    ensures ExtensionTest("less") == "\\.less$" && ExtensionTest("sass") == "\\.sass$"
    ensures ExtensionTest("scss") == "\\.scss$" && ExtensionTest("stylus") == "\\.stylus$"
    ensures ExtensionTest("styl") == "\\.styl$"
  {
  }
}
