# Verified model of a bundler's stylesheet loaders and production plugin list

This project models the two pieces of logic in the build configuration of a
Vue front end:

- **The stylesheet loader-chain builder** (`build/modules/utils.js`). For each of
  seven dialect keys (css, postcss, less, sass, scss, stylus, styl), `cssLoaders`
  builds an ordered chain. The chain is: the shared `css-loader` descriptor, an
  optional `<name>-loader` compiler stage, and then either the extraction wrapper
  (`ExtractTextPlugin.extract({use, fallback: 'vue-style-loader'})`) or
  `vue-style-loader` in front and `postcss-loader` at the end. `styleLoaders`
  turns that table into one `{test, use}` rule per dialect.
- **The production plugin-list assembler** (`build/modules/webpack/prod.js`). It
  sets the environment bundle, the devtool, the output names and the
  extraction-mode style rules. It builds a fixed list of nine plugins and then
  pushes the obfuscator, the gzip compression plugin and the bundle analyzer onto
  its tail, each gated by its own flag. It also holds the predicate that sends
  `.js` modules under a given root (the source's
  `path.join(__dirname, '../node_modules')`) to the vendor chunk.

Files:

- `js.dfy` (module `Js`) gives the JavaScript semantics the code relies on:
  `undefined` and booleans with their truthiness, `||`, `String.prototype.indexOf`
  and `Array.prototype.join`. It also has a splitter, used only to prove that
  `join` loses nothing.
- `utils.dfy` (module `Utils`) is `utils.js`. `generateLoaders`, `cssLoaders` and
  `styleLoaders` are methods, because the source pushes into arrays and loops over
  the table. Each method is proved equal to a specification function
  (`DialectChain`, `LoaderTable`, `StyleRules`), and the ordering facts are proved
  about those functions.
- `prod.dfy` (module `Prod`) is `prod.js`. The derived values and the plugin list
  are stated as functions. `MandatoryPlugins` is the nine-entry prefix,
  `OptionalPlugins` is the flag-gated tail, and `ProdPlugins` is the whole list.
  The exported object is the class `WebpackConfig`, whose `plugins` field is
  pushed onto in place. `BuildProdConfig` runs the module top to bottom, with its
  three conditional pushes, and is proved to produce `ProdPlugins`.

Plugins and loaders are descriptors: a constructor per plugin type, holding only
the fields this configuration sets. Regular expressions are kept as their source
text. `NODE_ENV`, `config.build`, the test environment bundle, `path.join`,
`path.posix.join`, the project root and the `node_modules` root are all
parameters (`Utils.Paths`, `Prod.Context`).

Points where the code's behaviour is easy to misread, and which the model keeps:

- Chains keep the source's array order: `vue-style-loader`, `css-loader`, the
  compiler, `postcss-loader`.
- Assembly can fail: `config.build.gzipExtensions.join('|')`
  (`build/modules/webpack/prod.js:156`) throws when gzip is on and the list is
  absent, and the model returns `Err(GzipExtensionsMissing)`.
- The fixed list has nine entries, ending with the copy plugin.
- `assetsPath` picks the build sub-directory only when `NODE_ENV` is
  `production`, and `css-loader`'s `minimize` option is on only then. A production
  build run with `NODE_ENV=testing` therefore uses the dev sub-directory, and
  css-loader's own `minimize` option is off; the Uglify and OptimizeCSS plugins
  of the fixed list still run.
- `config.build.assetsSubDirectory` is one setting, read both by `assetsPath` and
  by the copy plugin's target; the model reads both from
  `Utils.Paths.buildAssetsSubDirectory`.

## Model

| member | source | states |
|---|---|---|
| `Js.Or` | build/modules/utils.js:40 | `a \|\| b` is truthy iff either operand is; it is `a` when `a` is truthy, else `b` |
| `Js.IndexOf` | build/modules/webpack/prod.js:96-98 | the result is -1 iff the substring occurs nowhere; otherwise it is an occurrence with no earlier one |
| `Js.Join` | build/modules/webpack/prod.js:156 | the empty list joins to `""`; otherwise the result starts with the first piece and its length is the pieces' total length plus one separator between each two |
| `Js.IndexOfZeroIsPrefix` | build/modules/webpack/prod.js:96-98 | `s.indexOf(sub) === 0` holds exactly when `sub` is a prefix of `s` |
| `Js.SplitJoin` | build/modules/webpack/prod.js:156 | joining a non-empty list of pieces that do not contain the separator, then splitting, gives back the list |
| `Utils.AssetsPath` | build/modules/utils.js:18-23 | `assetsPath(p)` joins `p` onto `config.build.assetsSubDirectory` when NODE_ENV is production and onto `config.dev.assetsSubDirectory` otherwise, with `path.posix.join` |
| `Utils.Normalize` | build/modules/utils.js:28 | a missing options object behaves as `{}`: sourceMap undefined, extraction off; a given object is used as is |
| `Utils.CssLoader` | build/modules/utils.js:30-36 | `css-loader` with exactly the keys minimize and sourceMap; minimize is true iff NODE_ENV is production; sourceMap is `options.sourceMap` |
| `Utils.PostcssLoader` | build/modules/utils.js:38-41 | `postcss-loader` whose only option, sourceMap, is `options.sourceMap` when truthy and `false` otherwise |
| `Utils.CompilerStage` | build/modules/utils.js:49-54 | named `loader + '-loader'`; its options are the dialect options plus sourceMap, with sourceMap overridden by `options.sourceMap` and every other key kept |
| `Utils.DialectChain` | build/modules/utils.js:45-69 | wrapped in the extractor iff extract is truthy; css-loader comes right after vue-style-loader in a flat chain and first when extracted; a compiler stage right after it iff the loader name is truthy; flat chains have length 3 or 4, begin with vue-style-loader and end with postcss-loader; wrapped chains have length 1 or 2 with fallback vue-style-loader |
| `Utils.GenerateLoaders` | build/modules/utils.js:45-69 | the step-by-step pushes build exactly `DialectChain` |
| `Utils.LoaderTable` | build/modules/utils.js:72-81 | seven entries in key order css, postcss, less, sass, scss, stylus, styl, each the chain for its dialect's arguments |
| `Utils.CssLoaders` | build/modules/utils.js:27-82 | the seven `generateLoaders` calls on the normalised options give `LoaderTable` |
| `Utils.ExtensionTest` | build/modules/utils.js:91 | the test `\.<ext>$` is the extension between a leading `\.` and a trailing `$`, so the extension can be read back from it |
| `Utils.StyleRules` | build/modules/utils.js:88-94 | one rule per table entry, in table order; rule i tests `\.<key_i>$` and uses entry i's chain |
| `Utils.StyleLoaders` | build/modules/utils.js:85-96 | the loop over the table produces exactly `StyleRules` of `cssLoaders(options)` |
| `Utils.DialectHasCompiler` | build/modules/utils.js:72-80 | a chain has a compiler stage exactly for less, sass, scss, stylus and styl |
| `Utils.DialectCompilerStage` | build/modules/utils.js:75-79 | less gets `less-loader`, sass and scss get `sass-loader`, and stylus and styl get `stylus-loader`; only sass carries `indentedSyntax: true`; every one carries `options.sourceMap` |
| `Utils.InlineChains` | build/modules/utils.js:47-67 | without extraction every chain starts with vue-style-loader, then css-loader, and ends with postcss-loader; its length is 3 or 4; neither name appears anywhere else in it |
| `Utils.ExtractedChains` | build/modules/utils.js:60-64 | with extraction every chain is wrapped around css-loader and an optional compiler, with fallback vue-style-loader; neither postcss-loader nor vue-style-loader is wrapped |
| `Utils.StyleLoadersRules` | build/modules/utils.js:85-96 | exactly seven rules with tests `\.css$`, `\.postcss$`, `\.less$`, `\.sass$`, `\.scss$`, `\.stylus$`, `\.styl$` in that order, rule i using `cssLoaders(options)`'s chain i |
| `Prod.SelectEnv` | build/modules/webpack/prod.js:19 | the injected env is the test bundle when NODE_ENV is testing, the configured build env otherwise |
| `Prod.DevtoolFor` | build/modules/webpack/prod.js:30 | devtool is `'#source-map'` iff `config.build.sourceMap` is truthy, and disabled otherwise |
| `Prod.HtmlFilename` | build/modules/webpack/prod.js:69-71 | the HTML file is `index.html` when testing and `config.build.index` otherwise |
| `Prod.ProdRules` | build/modules/webpack/prod.js:23-28 | the module rules number seven; all are in extraction mode with fallback vue-style-loader, start with css-loader and contain no postcss-loader |
| `Prod.OutputFor` | build/modules/webpack/prod.js:32-36 | `output.path` is `config.build.assetsRoot`; the script and chunk names are `js/[name].[chunkhash].js` and `js/[id].[chunkhash].js` under `assetsPath` |
| `Prod.IsVendorModule` | build/modules/webpack/prod.js:91-100 | the `minChunks` predicate holds iff the resource is present, non-empty, ends in `.js` and has the node_modules root as a prefix (its `indexOf` is 0) |
| `Prod.VendorModuleMeaning` | build/modules/webpack/prod.js:88-100 | the vendor `CommonsChunk` of the fixed list carries a filter that selects exactly the present, non-empty `.js` resources with the node_modules root as a prefix |
| `Prod.AssetPaths` | build/modules/webpack/prod.js:126 | mapping `assetsPath` keeps the length, and element i is `assetsPath` of input element i |
| `Prod.ObfuscationIgnores` | build/modules/webpack/prod.js:126 | the ignore list is empty when the setting is absent; otherwise it is `assetsPath` applied to each element, keeping length and order |
| `Prod.GzipPattern` | build/modules/webpack/prod.js:156-164 | the pattern is `\.(`, then the extensions joined with `\|`, then `)$` |
| `Prod.CompressionPlugin` | build/modules/webpack/prod.js:161-167 | the compression plugin writes `[path].gz[query]` with gzip, tests the extension pattern, and has threshold 10240 and minRatio 0.8 |
| `Prod.GzipPatternRoundTrip` | build/modules/webpack/prod.js:156-164 | the compression pattern `\.(` + join(extensions, `\|`) + `)$` gives back a non-empty extension list whose entries contain no `\|` |
| `Prod.GzipPatternExample` | build/modules/webpack/prod.js:156-164 | `['js','css']` gives the pattern `\.(js\|css)$` |
| `Prod.GzipScenario` | build/modules/webpack/prod.js:153-174 | with gzip on and `['js','css']`, the last plugin, or the one before the analyzer when that is on, is the gzip compression of `\.(js\|css)$` with threshold 10240 and minRatio 0.8 |
| `Prod.MandatoryPlugins` | build/modules/webpack/prod.js:38-119 | nine plugins: Define(env), Uglify, ExtractText(css file name), OptimizeCSS, Html(file name), HashedModuleIds, CommonsChunk vendor with the node_modules filter, CommonsChunk manifest over the vendor chunk, Copy(static, the build assets sub-directory `assetsPath` also uses); none of them is optional |
| `Prod.SameFixedPlugins` | build/modules/webpack/prod.js:38-119 | the nine fixed plugins do not depend on the three optional-plugin flags or on gzipExtensions/obfuscationIgnore |
| `Prod.ObfuscatorPart` | build/modules/webpack/prod.js:123-150 | the obfuscation block pushes one obfuscator with the mapped ignore list when the flag is set, and nothing otherwise |
| `Prod.CompressionPart` | build/modules/webpack/prod.js:153-169 | the gzip block, when it does not fail, pushes one compression plugin for the configured extensions when the flag is set, and nothing otherwise |
| `Prod.AnalyzerPart` | build/modules/webpack/prod.js:171-174 | the analyzer block pushes one analyzer when the flag is set, and nothing otherwise |
| `Prod.OptionalPlugins` | build/modules/webpack/prod.js:123-174 | assembly fails iff gzip is on without an extension list; otherwise the tail's length is the number of set flags |
| `Prod.OptionalPluginsShape` | build/modules/webpack/prod.js:123-174 | the tail holds only optional plugins, in the order obfuscator, compression, analyzer; each is present iff its flag is set, and each has the settings its block gives it |
| `Prod.ProdPlugins` | build/modules/webpack/prod.js:38-174 | the list is the nine fixed plugins followed by the optional tail; its length is 9 plus the number of set flags; it fails only as the tail does |
| `Prod.OptionalPresence` | build/modules/webpack/prod.js:123-174 | in the whole list, the obfuscator, the compression plugin and the analyzer are each present iff their flag is set |
| `Prod.PrefixIndependentOfFlags` | build/modules/webpack/prod.js:123-174 | whatever the three flags are, the first nine plugins are the same |
| `Prod.ToggleBundleAnalyzer` | build/modules/webpack/prod.js:171-174 | turning the analyzer flag on appends the analyzer and changes nothing else |
| `Prod.ToggleObfuscation` | build/modules/webpack/prod.js:123-150 | turning obfuscation on inserts the obfuscator right after the nine fixed plugins and changes nothing else |
| `Prod.ToggleGzip` | build/modules/webpack/prod.js:153-169 | with an extension list, turning gzip on inserts the compression plugin after the fixed plugins and the obfuscator, if present, and changes nothing else |
| `Prod.WebpackConfig.constructor` | build/modules/webpack/prod.js:21-120 | the configuration object starts with the given rules, devtool, output and plugin list |
| `Prod.WebpackConfig.Push` | build/modules/webpack/prod.js:131 | `plugins.push(p)` appends `p` and leaves the rules, devtool and output unchanged |
| `Prod.BuildProdConfig` | build/modules/webpack/prod.js:21-176 | running the module fails exactly when `ProdPlugins` fails; otherwise it yields a fresh configuration with plugins `ProdPlugins`, rules `ProdRules`, the selected devtool and the output names |

## Left out

- `webpack-merge` and the base configuration (`./base`, which is not part of this model): the model's configuration is the production overlay. Base plugins and rules that the merge would place in front are not represented.
- The internals of every loader and plugin, and of `ExtractTextPlugin.extract`: they are descriptors. The literal option blocks of Uglify, OptimizeCSS, HtmlWebpackPlugin and the obfuscator are kept only as the few constant fields in the descriptors, or are dropped.
- Regular-expression semantics: patterns are kept as source strings, and `/\.js$/` is a suffix test.
- `Utils.Resolve`: kept as the uninterpreted `path.join` of the project root and `dir` (`build/modules/utils.js:12-14`); it has no contract because `path.join` is not interpreted.
- `path.join`, `path.posix.join`, `__dirname` and normalisation: these are uninterpreted parameters. The vendor root is given as a string. In the source it is `path.join(__dirname, '../node_modules')` with `__dirname` being `build/modules/webpack`, which names `build/modules/node_modules`: one level below the repository root, which the same file reaches with `'../../../config'` (`build/modules/webpack/prod.js:3`) and `utils.js` with `'../..'` (`build/modules/utils.js:13`). So the predicate as written probably compares against a directory that is not the project's `node_modules` and selects no installed package; this is worked out from the relative paths and has not been observed in a build. The model keeps whatever root is given. The same holds for `require('../config/test.env')` (`build/modules/webpack/prod.js:19`), which from `build/modules/webpack` names `build/modules/config/test.env`, while the file reaches the config directory with `'../../../config'`; under `NODE_ENV=testing` the module therefore probably throws at that line before any plugin is built. This too is worked out from the relative paths and has not been observed in a build; the model takes the test environment bundle as a parameter.
- JavaScript truthiness of non-boolean flag values: `obfuscation`, `gzip` and `bundleAnalyzerReport` are modelled as booleans. `sourceMap` and `extract` may be `undefined` or boolean.
- The order of keys inside option objects: the model uses maps.
- Object sharing: the source builds one `cssLoader` and one `postcssLoader` object (`build/modules/utils.js:30-41`) and puts the same objects into every chain. The model's stages are values, so that sharing is not represented. Nothing in the core mutates those objects, so nothing observable is lost.
- The `count` argument of `minChunks`: the source does not read it.
- `require`, the reads of `process.env`, and the two `console.log` lines: these are I/O. The mode and the settings are parameters.
- Idempotence of the builders: every Dafny function is deterministic, so it holds by construction and is not stated.
- Strings are sequences of Dafny characters, not UTF-16 code units: `Js.IndexOf` positions differ from JavaScript's on characters outside the Basic Multilingual Plane. The core only compares `indexOf(...)` with 0 and tests a suffix, which this does not affect.
