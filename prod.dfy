/**
 * The production build configuration of `build/modules/webpack/prod.js`:
 * the derived settings (environment bundle, devtool, HTML file name, output
 * names, style rules), the fixed list of nine plugins, and the three
 * flag-gated plugins pushed onto its tail.
 */
module Prod {
  import opened Js
  import Utils

  /** The environment-variable bundle injected as `process.env`; opaque here. */
  type EnvBundle = map<string, string>

  /** The `config.build` settings the production configuration reads. */
  datatype BuildSettings = BuildSettings(
    env: EnvBundle,
    sourceMap: JsValue,
    index: string,
    assetsRoot: string,
    obfuscation: bool,
    obfuscationIgnore: Option<seq<string>>,
    gzip: bool,
    gzipExtensions: Option<seq<string>>,
    bundleAnalyzerReport: bool)

  /**
   * Everything the module reads from outside: `NODE_ENV`, `config.build`,
   * the test environment bundle, the path helpers and the absolute
   * `node_modules` root the vendor predicate compares against.
   */
  datatype Context = Context(
    nodeEnv: string,
    build: BuildSettings,
    testEnv: EnvBundle,
    paths: Utils.Paths,
    nodeModulesRoot: string)

  /** The `minChunks` selection function of the vendor split, by its one parameter. */
  datatype ChunkFilter = VendorModules(nodeModulesRoot: string)

  /** Plugin instances, as the fields this configuration sets on them. */
  datatype Plugin =
    | Define(processEnv: EnvBundle)
    | UglifyJs(parallel: bool, sourceMap: bool, ecma: nat)
    | ExtractText(filename: string)
    | OptimizeCss(safe: bool)
    | Html(filename: string, template: string, inject: bool, chunksSortMode: string)
    | HashedModuleIds
    | CommonsChunk(name: string, chunks: Option<seq<string>>, minChunks: Option<ChunkFilter>)
    | Copy(from: string, to: string, ignore: seq<string>)
    | Obfuscator(ignores: seq<string>)
    | Compression(asset: string, algorithm: string, test: string, threshold: nat, minRatio: real)
    | BundleAnalyzer

  datatype Devtool = SourceMapTool(name: string) | NoDevtool

  datatype Output = Output(path: string, filename: string, chunkFilename: string)

  /** The one failure this model represents: `undefined.join('|')` when gzip is on without extensions. */
  datatype BuildError = GzipExtensionsMissing

  const GzipThreshold: nat := 10240
  const GzipMinRatio: real := 0.8

  /** The bundle injected as `process.env`: the test one when `NODE_ENV` is `testing`. */
  function SelectEnv(ctx: Context): (env: EnvBundle)
    ensures ctx.nodeEnv == "testing" ==> env == ctx.testEnv
    ensures ctx.nodeEnv != "testing" ==> env == ctx.build.env
  {
    if ctx.nodeEnv == "testing" then ctx.testEnv else ctx.build.env
  }

  /** `devtool`: `'#source-map'` when source maps are configured, `false` otherwise. */
  function DevtoolFor(sourceMap: JsValue): (d: Devtool)
    ensures d == SourceMapTool("#source-map") <==> Truthy(sourceMap)
    ensures d == NoDevtool <==> !Truthy(sourceMap)
  {
    if Truthy(sourceMap) then SourceMapTool("#source-map") else NoDevtool
  }

  /** The generated HTML file: `index.html` when testing, the configured index otherwise. */
  function HtmlFilename(ctx: Context): (f: string)
    ensures ctx.nodeEnv == "testing" ==> f == "index.html"
    ensures ctx.nodeEnv != "testing" ==> f == ctx.build.index
  {
    if ctx.nodeEnv == "testing" then "index.html" else ctx.build.index
  }

  function StyleOptionsFor(ctx: Context): Utils.StyleOptions {
    Utils.StyleOptions(ctx.build.sourceMap, Bool(true))
  }

  /** `module.rules`: the standalone style rules, always in extraction mode. */
  function ProdRules(ctx: Context): (rules: seq<Utils.Rule>)
    ensures |rules| == 7
    ensures forall i :: 0 <= i < 7 ==>
              rules[i].use.Extracted? && rules[i].use.fallback == Utils.VueStyleLoader
    ensures forall i, k :: 0 <= i < 7 && 0 <= k < |Utils.Stages(rules[i].use)| ==>
              Utils.StageName(Utils.Stages(rules[i].use)[k]) != Utils.PostcssLoaderName
    ensures forall i :: 0 <= i < 7 ==>
              |Utils.Stages(rules[i].use)| > 0 &&
              Utils.Stages(rules[i].use)[0] == Utils.CssLoader(ctx.nodeEnv, StyleOptionsFor(ctx))
  {
    var table := Utils.LoaderTable(ctx.nodeEnv, StyleOptionsFor(ctx));
    forall i | 0 <= i < 7
      ensures table[i].use.Extracted? && table[i].use.fallback == Utils.VueStyleLoader
      ensures forall k :: 0 <= k < |Utils.Stages(table[i].use)| ==>
                Utils.StageName(Utils.Stages(table[i].use)[k]) != Utils.PostcssLoaderName
      ensures |Utils.Stages(table[i].use)| > 0 && Utils.Stages(table[i].use)[0] == Utils.CssLoader(ctx.nodeEnv, StyleOptionsFor(ctx))
    {
      Utils.ExtractedChains(ctx.nodeEnv, StyleOptionsFor(ctx), i);
    }
    Utils.StyleRules(table)
  }

  /** `output`: the assets root, and content-hashed script names under the assets path. */
  function OutputFor(ctx: Context): (o: Output)
    ensures o.path == ctx.build.assetsRoot
    ensures o.filename == Utils.AssetsPath(ctx.nodeEnv, ctx.paths, "js/[name].[chunkhash].js")
    ensures o.chunkFilename == Utils.AssetsPath(ctx.nodeEnv, ctx.paths, "js/[id].[chunkhash].js")
  {
    Output(ctx.build.assetsRoot,
           Utils.AssetsPath(ctx.nodeEnv, ctx.paths, "js/[name].[chunkhash].js"),
           Utils.AssetsPath(ctx.nodeEnv, ctx.paths, "js/[id].[chunkhash].js"))
  }

  /**
   * The vendor `minChunks` predicate: the module has a non-empty resource
   * path that ends in `.js` and whose `indexOf` of the `node_modules` root
   * is 0. The bundler's `count` argument is not used.
   */
  function IsVendorModule(nodeModulesRoot: string, resource: Option<string>): (r: bool)
    ensures r <==> resource.Some? && |resource.value| > 0 &&
                   EndsWith(resource.value, ".js") && nodeModulesRoot <= resource.value
  {
    match resource
    case None => false
    case Some(path) =>
      IndexOfZeroIsPrefix(path, nodeModulesRoot);
      path != "" && EndsWith(path, ".js") && IndexOf(path, nodeModulesRoot) == 0
  }

  /** What a `minChunks` filter selects. */
  predicate Selects(f: ChunkFilter, resource: Option<string>) {
    IsVendorModule(f.nodeModulesRoot, resource)
  }

  /**
   * The vendor split of the fixed plugin list selects exactly the non-empty
   * `.js` resources that start with the `node_modules` root.
   */
  lemma VendorModuleMeaning(ctx: Context, resource: Option<string>)
    ensures MandatoryPlugins(ctx)[6].CommonsChunk? && MandatoryPlugins(ctx)[6].minChunks.Some?
    ensures Selects(MandatoryPlugins(ctx)[6].minChunks.value, resource) <==>
              resource.Some? && |resource.value| > 0 &&
              EndsWith(resource.value, ".js") && ctx.nodeModulesRoot <= resource.value
  {
    assert MandatoryPlugins(ctx)[6].minChunks.value == VendorModules(ctx.nodeModulesRoot);
  }

  /** `assetsPath` applied to each element, keeping length and order. */
  function AssetPaths(nodeEnv: string, paths: Utils.Paths, xs: seq<string>): (r: seq<string>)
    ensures |r| == |xs|
    ensures forall i :: 0 <= i < |xs| ==> r[i] == Utils.AssetsPath(nodeEnv, paths, xs[i])
    decreases |xs|
  {
    if xs == [] then [] else [Utils.AssetsPath(nodeEnv, paths, xs[0])] + AssetPaths(nodeEnv, paths, xs[1..])
  }

  /** `(config.build.obfuscationIgnore || []).map(assetsPath)`. */
  function ObfuscationIgnores(ctx: Context): (r: seq<string>)
    ensures ctx.build.obfuscationIgnore.None? ==> r == []
    ensures ctx.build.obfuscationIgnore.Some? ==>
              |r| == |ctx.build.obfuscationIgnore.value| &&
              forall i :: 0 <= i < |r| ==>
                r[i] == Utils.AssetsPath(ctx.nodeEnv, ctx.paths, ctx.build.obfuscationIgnore.value[i])
  {
    match ctx.build.obfuscationIgnore
    case None => []
    case Some(xs) => AssetPaths(ctx.nodeEnv, ctx.paths, xs)
  }

  /** The compression test pattern `'\\.(' + extensions.join('|') + ')$'`, as its source text. */
  function GzipPattern(extensions: seq<string>): (p: string)
    ensures |p| == |Join(extensions, "|")| + 5
    ensures p[..3] == "\\.(" && p[|p| - 2..] == ")$"
    ensures p[3..|p| - 2] == Join(extensions, "|")
  {
    "\\.(" + Join(extensions, "|") + ")$"
  }

  /** Reads the extension list back out of a compression test pattern. */
  function GzipExtensionsOf(pattern: string): Option<seq<string>> {
    if |pattern| >= 5 && pattern[..3] == "\\.(" && pattern[|pattern| - 2..] == ")$"
    then Some(Split(pattern[3..|pattern| - 2], '|'))
    else None
  }

  /** The pattern loses nothing: a non-empty list of extensions without `|` is read back unchanged. */
  lemma GzipPatternRoundTrip(extensions: seq<string>)
    requires |extensions| > 0
    requires forall i :: 0 <= i < |extensions| ==> '|' !in extensions[i]
    ensures GzipExtensionsOf(GzipPattern(extensions)) == Some(extensions)
  {
    SplitJoin(extensions, '|');
  }

  /** The compression plugin: gzip, the extension pattern, 10240 bytes, ratio 0.8. */
  function CompressionPlugin(extensions: seq<string>): (c: Plugin)
    ensures c.Compression? && c.asset == "[path].gz[query]" && c.algorithm == "gzip"
    ensures c.test == GzipPattern(extensions)
    ensures c.threshold == 10240 && c.minRatio == 0.8
  {
    Compression("[path].gz[query]", "gzip", GzipPattern(extensions), GzipThreshold, GzipMinRatio)
  }

  /** The plugins pushed only when their flag is set. */
  predicate IsOptional(p: Plugin) {
    p.Obfuscator? || p.Compression? || p.BundleAnalyzer?
  }

  /** The order in which the optional plugins are pushed. */
  function Rank(p: Plugin): nat {
    if p.Obfuscator? then 0 else if p.Compression? then 1 else 2
  }

  function FlagCount(b: BuildSettings): nat {
    (if b.obfuscation then 1 else 0) + (if b.gzip then 1 else 0) + (if b.bundleAnalyzerReport then 1 else 0)
  }

  /** The nine plugins every production build has, in their fixed order. */
  function MandatoryPlugins(ctx: Context): (r: seq<Plugin>)
    ensures |r| == 9
    ensures r[0] == Define(SelectEnv(ctx))
    ensures r[1].UglifyJs? && r[3].OptimizeCss? && r[5] == HashedModuleIds
    ensures r[2] == ExtractText(Utils.AssetsPath(ctx.nodeEnv, ctx.paths, "css/[name].[contenthash].css"))
    ensures r[4].Html? && r[4].filename == HtmlFilename(ctx) && r[4].template == "index.html"
    ensures r[6] == CommonsChunk("vendor", None, Some(VendorModules(ctx.nodeModulesRoot)))
    ensures r[7] == CommonsChunk("manifest", Some([r[6].name]), None)
    ensures r[8] == Copy(Utils.Resolve(ctx.paths, "static"), ctx.paths.buildAssetsSubDirectory, [".*"])
    ensures forall i :: 0 <= i < |r| ==> !IsOptional(r[i])
  {
    [ Define(SelectEnv(ctx)),
      UglifyJs(true, true, 8),
      ExtractText(Utils.AssetsPath(ctx.nodeEnv, ctx.paths, "css/[name].[contenthash].css")),
      OptimizeCss(true),
      Html(HtmlFilename(ctx), "index.html", true, "dependency"),
      HashedModuleIds,
      CommonsChunk("vendor", None, Some(VendorModules(ctx.nodeModulesRoot))),
      CommonsChunk("manifest", Some(["vendor"]), None),
      Copy(Utils.Resolve(ctx.paths, "static"), ctx.paths.buildAssetsSubDirectory, [".*"]) ]
  }

  /** What the obfuscation block pushes. */
  function ObfuscatorPart(ctx: Context): (r: seq<Plugin>)
    ensures ctx.build.obfuscation ==> r == [Obfuscator(ObfuscationIgnores(ctx))]
    ensures !ctx.build.obfuscation ==> r == []
  {
    if ctx.build.obfuscation then [Obfuscator(ObfuscationIgnores(ctx))] else []
  }

  /** What the gzip block pushes, when it does not fail. */
  function CompressionPart(ctx: Context): (r: seq<Plugin>)
    requires !(ctx.build.gzip && ctx.build.gzipExtensions.None?)
    ensures ctx.build.gzip ==> r == [CompressionPlugin(ctx.build.gzipExtensions.value)]
    ensures !ctx.build.gzip ==> r == []
  {
    if ctx.build.gzip then [CompressionPlugin(ctx.build.gzipExtensions.value)] else []
  }

  /** What the analyzer block pushes. */
  function AnalyzerPart(ctx: Context): (r: seq<Plugin>)
    ensures ctx.build.bundleAnalyzerReport ==> r == [BundleAnalyzer]
    ensures !ctx.build.bundleAnalyzerReport ==> r == []
  {
    if ctx.build.bundleAnalyzerReport then [BundleAnalyzer] else []
  }

  /**
   * The plugins the three conditional blocks push, in order, or the failure
   * of the gzip block when it has no extension list to join.
   */
  function OptionalPlugins(ctx: Context): (r: Result<seq<Plugin>, BuildError>)
    ensures r.Err? <==> ctx.build.gzip && ctx.build.gzipExtensions.None?
    ensures r.Ok? ==> |r.value| == FlagCount(ctx.build)
  {
    if ctx.build.gzip && ctx.build.gzipExtensions.None? then Err(GzipExtensionsMissing)
    else Ok(ObfuscatorPart(ctx) + CompressionPart(ctx) + AnalyzerPart(ctx))
  }

  /**
   * The optional tail holds only optional plugins, in the order obfuscator,
   * compression, analyzer, each exactly when its flag is set, each with the
   * settings its block gives it.
   */
  lemma OptionalPluginsShape(ctx: Context)
    requires OptionalPlugins(ctx).Ok?
    ensures var tail := OptionalPlugins(ctx).value;
      && (forall i :: 0 <= i < |tail| ==> IsOptional(tail[i]))
      && (forall i, j :: 0 <= i < j < |tail| ==> Rank(tail[i]) < Rank(tail[j]))
      && (ctx.build.obfuscation <==> Obfuscator(ObfuscationIgnores(ctx)) in tail)
      && (forall p :: p in tail && p.Obfuscator? ==> p == Obfuscator(ObfuscationIgnores(ctx)))
      && (ctx.build.gzip <==> exists p :: p in tail && p.Compression?)
      && (forall p :: p in tail && p.Compression? ==> p == CompressionPlugin(ctx.build.gzipExtensions.value))
      && (ctx.build.bundleAnalyzerReport <==> BundleAnalyzer in tail)
  {
    var tail := OptionalPlugins(ctx).value;
    assert tail == ObfuscatorPart(ctx) + CompressionPart(ctx) + AnalyzerPart(ctx);
    if ctx.build.gzip {
      assert tail[|ObfuscatorPart(ctx)|] == CompressionPart(ctx)[0];
    }
  }

  /** The final plugin list: the nine fixed plugins followed by the optional ones. */
  function ProdPlugins(ctx: Context): (r: Result<seq<Plugin>, BuildError>)
    ensures r.Ok? <==> OptionalPlugins(ctx).Ok?
    ensures r.Err? ==> r.error == GzipExtensionsMissing
    ensures r.Ok? ==> |r.value| == 9 + FlagCount(ctx.build)
    ensures r.Ok? ==> r.value[..9] == MandatoryPlugins(ctx)
    ensures r.Ok? ==> r.value[9..] == OptionalPlugins(ctx).value
  {
    match OptionalPlugins(ctx)
    case Err(e) => Err(e)
    case Ok(tail) => Ok(MandatoryPlugins(ctx) + tail)
  }

  /** In the whole list, each optional plugin is present exactly when its flag is set. */
  lemma OptionalPresence(ctx: Context)
    requires ProdPlugins(ctx).Ok?
    ensures var ps := ProdPlugins(ctx).value;
      && (ctx.build.obfuscation <==> exists p :: p in ps && p.Obfuscator?)
      && (ctx.build.gzip <==> exists p :: p in ps && p.Compression?)
      && (ctx.build.bundleAnalyzerReport <==> exists p :: p in ps && p.BundleAnalyzer?)
  {
    var ps := ProdPlugins(ctx).value;
    var fixed := MandatoryPlugins(ctx);
    var tail := OptionalPlugins(ctx).value;
    OptionalPluginsShape(ctx);
    assert ps == fixed + tail;
    forall p | p in ps && IsOptional(p)
      ensures p in tail
    {
      assert p !in fixed;
    }
    if ctx.build.obfuscation {
      assert Obfuscator(ObfuscationIgnores(ctx)) in ps;
    }
    if ctx.build.bundleAnalyzerReport {
      assert BundleAnalyzer in ps;
    }
  }

  /**
   * With gzip on and the extensions `['js', 'css']`, the compression plugin
   * is the last plugin, or the one before the analyzer, and tests
   * `\.(js|css)$` with threshold 10240 and ratio 0.8.
   */
  lemma GzipScenario(ctx: Context)
    requires ctx.build.gzip && ctx.build.gzipExtensions == Some(["js", "css"])
    ensures ProdPlugins(ctx).Ok?
    ensures var ps := ProdPlugins(ctx).value;
      var k := |ps| - 1 - (if ctx.build.bundleAnalyzerReport then 1 else 0);
      && 9 <= k < |ps|
      && ps[k] == Compression("[path].gz[query]", "gzip", "\\.(js|css)$", 10240, 0.8)
  {
    GzipPatternExample();
    ProdPluginsUnfold(ctx);
    var fixed := MandatoryPlugins(ctx);
    var tail := OptionalPlugins(ctx).value;
    var gz := CompressionPlugin(["js", "css"]);
    assert CompressionPart(ctx) == [gz];
    assert tail == ObfuscatorPart(ctx) + [gz] + AnalyzerPart(ctx);
    assert tail[|ObfuscatorPart(ctx)|] == gz;
    assert ProdPlugins(ctx).value == fixed + tail;
  }

  /** `['js', 'css']` gives the pattern `\.(js|css)$`. */
  lemma GzipPatternExample()
    ensures GzipPattern(["js", "css"]) == "\\.(js|css)$"
  {
    assert Join(["js", "css"], "|") == "js|css";
  }

  function WithFlags(ctx: Context, obfuscation: bool, gzip: bool, analyzer: bool): Context {
    ctx.(build := ctx.build.(obfuscation := obfuscation, gzip := gzip, bundleAnalyzerReport := analyzer))
  }

  /** The fixed plugins do not read the three flags. */
  lemma SameFixedPlugins(c1: Context, c2: Context)
    requires c1.nodeEnv == c2.nodeEnv && c1.testEnv == c2.testEnv && c1.nodeModulesRoot == c2.nodeModulesRoot
    requires c1.paths == c2.paths
    requires c1.build.env == c2.build.env && c1.build.index == c2.build.index
    ensures MandatoryPlugins(c1) == MandatoryPlugins(c2)
  {
    assert SelectEnv(c1) == SelectEnv(c2) && HtmlFilename(c1) == HtmlFilename(c2);
  }

  /** Whatever the three flags are, the first nine plugins are the same. */
  lemma PrefixIndependentOfFlags(ctx: Context, obfuscation: bool, gzip: bool, analyzer: bool)
    requires ProdPlugins(ctx).Ok?
    ensures var other := ProdPlugins(WithFlags(ctx, obfuscation, gzip, analyzer));
      other.Ok? ==> other.value[..9] == ProdPlugins(ctx).value[..9]
  {
    assert MandatoryPlugins(WithFlags(ctx, obfuscation, gzip, analyzer)) == MandatoryPlugins(ctx);
  }

  lemma ProdPluginsUnfold(ctx: Context)
    requires OptionalPlugins(ctx).Ok?
    ensures OptionalPlugins(ctx).value == ObfuscatorPart(ctx) + CompressionPart(ctx) + AnalyzerPart(ctx)
    ensures ProdPlugins(ctx) == Ok(MandatoryPlugins(ctx) + OptionalPlugins(ctx).value)
  {
  }

  /** `fixed + xs + ys` with `z` put between `xs` and `ys`, read off the list without it. */
  lemma InsertBetween<T>(fixed: seq<T>, xs: seq<T>, z: T, ys: seq<T>)
    ensures var without := fixed + (xs + ys);
      && |fixed| + |xs| <= |without|
      && fixed + (xs + [z] + ys) == without[..|fixed| + |xs|] + [z] + without[|fixed| + |xs|..]
  {
    var without := fixed + (xs + ys);
    assert without[..|fixed| + |xs|] == fixed + xs;
    assert without[|fixed| + |xs|..] == ys;
  }

  /** Setting the analyzer flag appends the analyzer and changes nothing else. */
  lemma ToggleBundleAnalyzer(ctx: Context)
    ensures var on := ProdPlugins(ctx.(build := ctx.build.(bundleAnalyzerReport := true)));
      var off := ProdPlugins(ctx.(build := ctx.build.(bundleAnalyzerReport := false)));
      && (on.Ok? <==> off.Ok?)
      && (on.Ok? ==> on.value == off.value + [BundleAnalyzer])
  {
    var cOn := ctx.(build := ctx.build.(bundleAnalyzerReport := true));
    var cOff := ctx.(build := ctx.build.(bundleAnalyzerReport := false));
    SameFixedPlugins(cOn, cOff);
    if !(ctx.build.gzip && ctx.build.gzipExtensions.None?) {
      ProdPluginsUnfold(cOn);
      ProdPluginsUnfold(cOff);
      assert ObfuscatorPart(cOn) == ObfuscatorPart(cOff) by {
        assert ObfuscationIgnores(cOn) == ObfuscationIgnores(cOff);
      }
      assert CompressionPart(cOn) == CompressionPart(cOff);
      InsertBetween(MandatoryPlugins(cOff), ObfuscatorPart(cOff) + CompressionPart(cOff), BundleAnalyzer, []);
    }
  }

  /** Setting the obfuscation flag inserts the obfuscator right after the nine fixed plugins. */
  lemma ToggleObfuscation(ctx: Context)
    ensures var on := ProdPlugins(ctx.(build := ctx.build.(obfuscation := true)));
      var off := ProdPlugins(ctx.(build := ctx.build.(obfuscation := false)));
      && (on.Ok? <==> off.Ok?)
      && (on.Ok? ==> on.value == off.value[..9] + [Obfuscator(ObfuscationIgnores(ctx))] + off.value[9..])
  {
    var cOn := ctx.(build := ctx.build.(obfuscation := true));
    var cOff := ctx.(build := ctx.build.(obfuscation := false));
    SameFixedPlugins(cOn, cOff);
    if !(ctx.build.gzip && ctx.build.gzipExtensions.None?) {
      ProdPluginsUnfold(cOn);
      ProdPluginsUnfold(cOff);
      assert ObfuscatorPart(cOn) == [Obfuscator(ObfuscationIgnores(ctx))] by {
        assert ObfuscationIgnores(cOn) == ObfuscationIgnores(ctx);
      }
      assert ObfuscatorPart(cOff) == [];
      assert CompressionPart(cOn) == CompressionPart(cOff);
      assert AnalyzerPart(cOn) == AnalyzerPart(cOff);
      InsertBetween(MandatoryPlugins(cOff), [], Obfuscator(ObfuscationIgnores(ctx)),
                    CompressionPart(cOff) + AnalyzerPart(cOff));
    }
  }

  /**
   * With an extension list, setting the gzip flag inserts the compression
   * plugin after the fixed plugins and the obfuscator, if any.
   */
  lemma ToggleGzip(ctx: Context)
    requires ctx.build.gzipExtensions.Some?
    ensures var on := ProdPlugins(ctx.(build := ctx.build.(gzip := true)));
      var off := ProdPlugins(ctx.(build := ctx.build.(gzip := false)));
      var k := 9 + (if ctx.build.obfuscation then 1 else 0);
      && on.Ok? && off.Ok? && k <= |off.value|
      && on.value == off.value[..k] + [CompressionPlugin(ctx.build.gzipExtensions.value)] + off.value[k..]
  {
    var cOn := ctx.(build := ctx.build.(gzip := true));
    var cOff := ctx.(build := ctx.build.(gzip := false));
    SameFixedPlugins(cOn, cOff);
    ProdPluginsUnfold(cOn);
    ProdPluginsUnfold(cOff);
    assert ObfuscatorPart(cOn) == ObfuscatorPart(cOff) by {
      assert ObfuscationIgnores(cOn) == ObfuscationIgnores(cOff);
    }
    assert CompressionPart(cOn) == [CompressionPlugin(ctx.build.gzipExtensions.value)];
    assert CompressionPart(cOff) == [];
    assert AnalyzerPart(cOn) == AnalyzerPart(cOff);
    assert |ObfuscatorPart(cOff)| == (if ctx.build.obfuscation then 1 else 0);
    InsertBetween(MandatoryPlugins(cOff), ObfuscatorPart(cOff), CompressionPlugin(ctx.build.gzipExtensions.value),
                  AnalyzerPart(cOff));
  }

  /** The configuration object the module exports; `webpackConfig.plugins` is pushed onto in place. */
  class WebpackConfig {
    var rules: seq<Utils.Rule>
    var devtool: Devtool
    var output: Output
    var plugins: seq<Plugin>

    constructor (rules: seq<Utils.Rule>, devtool: Devtool, output: Output, plugins: seq<Plugin>)
      ensures this.rules == rules && this.devtool == devtool && this.output == output
      ensures this.plugins == plugins
    {
      this.rules := rules;
      this.devtool := devtool;
      this.output := output;
      this.plugins := plugins;
    }

    /** `webpackConfig.plugins.push(p)`. */
    method Push(p: Plugin)
      modifies this
      ensures plugins == old(plugins) + [p]
      ensures rules == old(rules) && devtool == old(devtool) && output == old(output)
    {
      plugins := plugins + [p];
    }
  }

  /**
   * The whole module: builds the configuration with its nine fixed plugins,
   * then runs the obfuscation, gzip and analyzer blocks in that order.
   */
  method BuildProdConfig(ctx: Context) returns (r: Result<WebpackConfig, BuildError>)
    ensures r.Ok? <==> ProdPlugins(ctx).Ok?
    ensures r.Err? ==> r.error == GzipExtensionsMissing
    ensures r.Ok? ==> fresh(r.value)
    ensures r.Ok? ==> r.value.plugins == ProdPlugins(ctx).value
    ensures r.Ok? ==> r.value.rules == ProdRules(ctx)
    ensures r.Ok? ==> r.value.devtool == DevtoolFor(ctx.build.sourceMap) && r.value.output == OutputFor(ctx)
  {
    var rules := Utils.StyleLoaders(ctx.nodeEnv, Some(StyleOptionsFor(ctx)));
    var config := new WebpackConfig(rules, DevtoolFor(ctx.build.sourceMap), OutputFor(ctx), MandatoryPlugins(ctx));
    ghost var pushed: seq<Plugin> := [];
    if ctx.build.obfuscation {
      var ignores := ObfuscationIgnores(ctx);
      config.Push(Obfuscator(ignores));
      pushed := pushed + [Obfuscator(ignores)];
    }
    assert pushed == ObfuscatorPart(ctx);
    if ctx.build.gzip {
      if ctx.build.gzipExtensions.None? {
        return Err(GzipExtensionsMissing);
      }
      config.Push(CompressionPlugin(ctx.build.gzipExtensions.value));
      pushed := pushed + [CompressionPlugin(ctx.build.gzipExtensions.value)];
    }
    assert pushed == ObfuscatorPart(ctx) + CompressionPart(ctx);
    if ctx.build.bundleAnalyzerReport {
      config.Push(BundleAnalyzer);
      pushed := pushed + [BundleAnalyzer];
    }
    assert pushed == ObfuscatorPart(ctx) + CompressionPart(ctx) + AnalyzerPart(ctx);
    assert config.plugins == MandatoryPlugins(ctx) + pushed;
    ProdPluginsUnfold(ctx);
    r := Ok(config);
  }
}
