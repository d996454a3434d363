/** Build configuration of the PDFium WebAssembly module.
    Two variants exist: "full" embeds the font directory into the module's
    virtual filesystem, "lite" leaves fonts to be loaded at run time.
    The configuration is a record of the variant, the names derived from it
    and the Emscripten command-line flags. */
module Config {

  /** Directory on the build host whose fonts the full variant embeds. */
  const EMBED_FONTS_DIR: string := "/embed-fonts"
  /** Where the embedded fonts appear in the module's virtual filesystem. */
  const EMBED_FONTS_TARGET: string := "/fonts"

  /** Emscripten flags common to both variants, in command-line order. */
  const BASE_EMSCRIPTEN_FLAGS: seq<string> := [
    "-s", "WASM=1",
    "-s", "MODULARIZE=1",
    "-s", "EXPORT_ES6=1",
    "-s", "ALLOW_MEMORY_GROWTH=1",
    "-s", "INITIAL_MEMORY=33554432",
    "-s", "MAXIMUM_MEMORY=536870912",
    "-s", "FORCE_FILESYSTEM=1",
    "-s", "ALLOW_TABLE_GROWTH=1",
    "-s", "ASSERTIONS=0",
    "-s", "USE_ZLIB=1",
    "-s", "USE_LIBJPEG=1",
    "-s", "USE_LIBPNG=1",
    "-O3",
    "--closure", "0"
  ]

  /** The error raised for a variant that is neither "full" nor "lite". */
  datatype ValueError = ValueError(message: string)

  datatype Result<T> = Ok(value: T) | Err(error: ValueError)

  /** The five entries of the configuration dictionary. */
  datatype BuildConfig = BuildConfig(
    variant: string,
    outputName: string,
    exportName: string,
    flags: seq<string>,
    embedFonts: bool)

  /** A mutable list of flags, as a list object is in the build script:
      it can be copied into a new list and extended in place. */
  class FlagList {
    var items: seq<string>

    constructor (items: seq<string>)
      ensures this.items == items
    {
      this.items := items;
    }

    /** A new list with the same items; later changes to either list do
        not reach the other. */
    method Copy() returns (c: FlagList)
      ensures fresh(c) && c.items == items
    {
      c := new FlagList(items);
    }

    /** Appends `more` to the end of this list, in order. */
    method Extend(more: seq<string>)
      modifies this
      ensures items == old(items) + more
    {
      items := items + more;
    }
  }

  /** The accepted variant names, as a membership test on the pair of names. */
  predicate IsKnownVariant(variant: string)
    ensures IsKnownVariant(variant) <==> variant == "full" || variant == "lite"
  {
    variant in ["full", "lite"]
  }

  predicate StartsWith(s: string, prefix: string) {
    |prefix| <= |s| && s[..|prefix|] == prefix
  }

  /** Number of positions of `flags` that hold exactly `flag`. */
  function Occurrences(flags: seq<string>, flag: string): (n: nat)
    ensures n <= |flags|
    ensures n == 0 <==> flag !in flags
  {
    if flags == [] then 0
    else (if flags[0] == flag then 1 else 0) + Occurrences(flags[1..], flag)
  }

  /** Counting distributes over concatenation. */
  lemma {:induction false} OccurrencesAppend(a: seq<string>, b: seq<string>, flag: string)
    ensures Occurrences(a + b, flag) == Occurrences(a, flag) + Occurrences(b, flag)
  {
    if a == [] {
      assert a + b == b;
    } else {
      assert (a + b)[1..] == a[1..] + b;
      OccurrencesAppend(a[1..], b, flag);
    }
  }

  /** Name of the generated JavaScript loader, without extension. */
  function OutputName(variant: string): (name: string)
    ensures StartsWith(name, "pdfium-") && name[|"pdfium-"|..] == variant
  {
    "pdfium-" + variant
  }

  /** Name of the factory function the ES6 module exports. */
  function ExportName(variant: string): (name: string)
    ensures variant == "full" ==> name == "loadPdfiumFull"
    ensures variant != "full" ==> name == "loadPdfiumLite"
  {
    "loadPdfium" + (if variant == "full" then "Full" else "Lite")
  }

  /** The reference definition of the configuration for one variant,
      over the base flag list `base`. */
  function BuildConfigFrom(base: seq<string>, variant: string): (r: Result<BuildConfig>)
    ensures r.Err? <==> !IsKnownVariant(variant)
    ensures r.Err? ==> r.error.message == "Unknown variant: " + variant
    ensures r.Ok? ==>
      && r.value.variant == variant
      && r.value.outputName == OutputName(variant)
      && r.value.exportName == ExportName(variant)
      && (r.value.embedFonts <==> variant == "full")
      && |r.value.flags| == |base| + (if variant == "full" then 6 else 4)
      && r.value.flags[..|base|] == base
  {
    if !IsKnownVariant(variant) then
      Err(ValueError("Unknown variant: " + variant))
    else
      var embed := variant == "full";
      Ok(BuildConfig(
        variant,
        OutputName(variant),
        ExportName(variant),
        base
          + ["-s", "EXPORT_NAME=" + ExportName(variant)]
          + ["-o", OutputName(variant) + ".js"]
          + (if embed then ["--embed-file", EMBED_FONTS_DIR + "@" + EMBED_FONTS_TARGET] else []),
        embed))
  }

  /** The record the full variant gives over any base list. */
  lemma FullConfig(base: seq<string>)
    ensures BuildConfigFrom(base, "full") == Ok(BuildConfig(
      "full", "pdfium-full", "loadPdfiumFull",
      base + ["-s", "EXPORT_NAME=loadPdfiumFull", "-o", "pdfium-full.js",
              "--embed-file", "/embed-fonts@/fonts"],
      true))
  {
    var n := |base|;
    var c := BuildConfigFrom(base, "full").value;
    assert c.outputName == "pdfium-full" && c.exportName == "loadPdfiumFull";
    assert "EXPORT_NAME=" + ExportName("full") == "EXPORT_NAME=loadPdfiumFull";
    assert OutputName("full") + ".js" == "pdfium-full.js";
    assert EMBED_FONTS_DIR + "@" + EMBED_FONTS_TARGET == "/embed-fonts@/fonts";
    assert c.flags[n..] == ["-s", "EXPORT_NAME=loadPdfiumFull", "-o", "pdfium-full.js",
                            "--embed-file", "/embed-fonts@/fonts"];
    assert c.flags == c.flags[..n] + c.flags[n..];
  }

  /** The record the lite variant gives over any base list. */
  lemma LiteConfig(base: seq<string>)
    ensures BuildConfigFrom(base, "lite") == Ok(BuildConfig(
      "lite", "pdfium-lite", "loadPdfiumLite",
      base + ["-s", "EXPORT_NAME=loadPdfiumLite", "-o", "pdfium-lite.js"],
      false))
  {
    var n := |base|;
    var c := BuildConfigFrom(base, "lite").value;
    assert c.outputName == "pdfium-lite" && c.exportName == "loadPdfiumLite";
    assert "EXPORT_NAME=" + ExportName("lite") == "EXPORT_NAME=loadPdfiumLite";
    assert OutputName("lite") + ".js" == "pdfium-lite.js";
    assert c.flags[n..] == ["-s", "EXPORT_NAME=loadPdfiumLite", "-o", "pdfium-lite.js"];
    assert c.flags == c.flags[..n] + c.flags[n..];
  }

  /** The configuration built over the module's own base flags: the two
      accepted variants give exactly these records, every other name the
      error. */
  function BuildConfigOf(variant: string): (r: Result<BuildConfig>)
    ensures variant == "full" ==> r == Ok(BuildConfig(
      "full", "pdfium-full", "loadPdfiumFull",
      BASE_EMSCRIPTEN_FLAGS + ["-s", "EXPORT_NAME=loadPdfiumFull", "-o", "pdfium-full.js",
                               "--embed-file", "/embed-fonts@/fonts"],
      true))
    ensures variant == "lite" ==> r == Ok(BuildConfig(
      "lite", "pdfium-lite", "loadPdfiumLite",
      BASE_EMSCRIPTEN_FLAGS + ["-s", "EXPORT_NAME=loadPdfiumLite", "-o", "pdfium-lite.js"],
      false))
    ensures variant != "full" && variant != "lite" ==> r == Err(ValueError("Unknown variant: " + variant))
  {
    FullConfig(BASE_EMSCRIPTEN_FLAGS);
    LiteConfig(BASE_EMSCRIPTEN_FLAGS);
    BuildConfigFrom(BASE_EMSCRIPTEN_FLAGS, variant)
  }

  /** Builds the configuration for `variant`, growing a copy of the global
      base flag list `baseFlags` in place. No `modifies` clause: the global
      list is left as it was. */
  method GetBuildConfig(baseFlags: FlagList, variant: string) returns (r: Result<BuildConfig>)
    ensures r == BuildConfigFrom(baseFlags.items, variant)
  {
    if !IsKnownVariant(variant) {
      return Err(ValueError("Unknown variant: " + variant));
    }
    var outputName := "pdfium-" + variant;
    var exportName := "loadPdfium" + (if variant == "full" then "Full" else "Lite");
    var flags := baseFlags.Copy();
    var embedFonts := variant == "full";

    flags.Extend(["-s", "EXPORT_NAME=" + exportName]);
    flags.Extend(["-o", outputName + ".js"]);
    if embedFonts {
      flags.Extend(["--embed-file", EMBED_FONTS_DIR + "@" + EMBED_FONTS_TARGET]);
    }
    assert flags.items == BuildConfigFrom(baseFlags.items, variant).value.flags;
    r := Ok(BuildConfig(variant, outputName, exportName, flags.items, embedFonts));
  }

  /** The base flags name no output file and embed nothing. */
  lemma BaseLacksOutputAndEmbedFlags()
    ensures "-o" !in BASE_EMSCRIPTEN_FLAGS
    ensures "--embed-file" !in BASE_EMSCRIPTEN_FLAGS
  {
  }

  /** No base flag sets EXPORT_NAME; the closest, EXPORT_ES6=1, differs at
      its eighth character. */
  lemma BaseSetsNoExportName()
    ensures forall i :: 0 <= i < |BASE_EMSCRIPTEN_FLAGS| ==> !StartsWith(BASE_EMSCRIPTEN_FLAGS[i], "EXPORT_NAME=")
  {
    forall i | 0 <= i < |BASE_EMSCRIPTEN_FLAGS|
      ensures !StartsWith(BASE_EMSCRIPTEN_FLAGS[i], "EXPORT_NAME=")
    {
      var s := BASE_EMSCRIPTEN_FLAGS[i];
      assert |s| < 12 || s[0] != 'E' || s[7] != 'N';
    }
  }

  /** After the base flags come the EXPORT_NAME setting, then the output
      file, then (full variant only) the font directory to embed, which
      closes the list. */
  lemma AppendedInOrder(base: seq<string>, variant: string)
    requires IsKnownVariant(variant)
    ensures var flags := BuildConfigFrom(base, variant).value.flags;
      && |flags| >= |base| + 4
      && flags[|base|..|base| + 2] == ["-s", "EXPORT_NAME=" + ExportName(variant)]
      && flags[|base| + 2..|base| + 4] == ["-o", OutputName(variant) + ".js"]
      && (variant == "full" ==> flags[|base| + 4..] == ["--embed-file", "/embed-fonts@/fonts"])
      && (variant == "lite" ==> |flags| == |base| + 4)
  {
    assert EMBED_FONTS_DIR + "@" + EMBED_FONTS_TARGET == "/embed-fonts@/fonts";
  }

  /** Over a base list without "-o", the output file is given exactly once,
      right after the EXPORT_NAME setting, and names the derived output
      name with a ".js" extension. */
  lemma OutputFileFlag(base: seq<string>, variant: string)
    requires IsKnownVariant(variant)
    requires "-o" !in base
    ensures var flags := BuildConfigFrom(base, variant).value.flags;
      && Occurrences(flags, "-o") == 1
      && forall i :: 0 <= i < |flags| && flags[i] == "-o" ==>
           i == |base| + 2 && flags[i + 1] == OutputName(variant) + ".js"
  {
    var flags := BuildConfigFrom(base, variant).value.flags;
    var n := |base|;
    var rest := flags[n + 3..];
    assert flags == base + ["-s", flags[n + 1]] + (["-o"] + rest);
    assert "-o" !in rest;
    OccurrencesAppend(base + ["-s", flags[n + 1]], ["-o"] + rest, "-o");
    OccurrencesAppend(base, ["-s", flags[n + 1]], "-o");
    assert (["-o"] + rest)[1..] == rest;
  }

  /** Over a base list that sets no EXPORT_NAME, the only EXPORT_NAME
      setting is the one appended, passed with "-s" and naming the
      variant's loader. */
  lemma ExportNameFlag(base: seq<string>, variant: string)
    requires IsKnownVariant(variant)
    requires forall i :: 0 <= i < |base| ==> !StartsWith(base[i], "EXPORT_NAME=")
    ensures var c := BuildConfigFrom(base, variant).value;
      && c.exportName == (if variant == "full" then "loadPdfiumFull" else "loadPdfiumLite")
      && StartsWith(c.flags[|base| + 1], "EXPORT_NAME=")
      && forall i :: 0 <= i < |c.flags| && StartsWith(c.flags[i], "EXPORT_NAME=") ==>
           i == |base| + 1 && c.flags[i - 1] == "-s" && c.flags[i] == "EXPORT_NAME=" + c.exportName
  {
    var c := BuildConfigFrom(base, variant).value;
    var n := |base|;
    forall i | 0 <= i < |c.flags| && i != n + 1
      ensures !StartsWith(c.flags[i], "EXPORT_NAME=")
    {
      if i < n {
        assert c.flags[i] == base[i];
      } else {
        assert c.flags[i][0] in "-pl/";
      }
    }
  }

  /** Over a base list without "--embed-file", the flag appears exactly once
      for the full variant, as the second-last flag followed by the font
      directory mapping, and not at all for the lite variant. */
  lemma EmbedFileOnlyForFull(base: seq<string>, variant: string)
    requires IsKnownVariant(variant)
    requires "--embed-file" !in base
    ensures var flags := BuildConfigFrom(base, variant).value.flags;
      && Occurrences(flags, "--embed-file") == (if variant == "full" then 1 else 0)
      && (variant == "full" ==> flags[|flags| - 2..] == ["--embed-file", EMBED_FONTS_DIR + "@" + EMBED_FONTS_TARGET])
  {
    var flags := BuildConfigFrom(base, variant).value.flags;
    var n := |base|;
    var appended := flags[n..n + 4];
    assert "--embed-file" !in appended;
    if variant == "full" {
      assert flags == base + appended + ["--embed-file", flags[n + 5]];
      OccurrencesAppend(base + appended, ["--embed-file", flags[n + 5]], "--embed-file");
    } else {
      assert flags == base + appended;
    }
    OccurrencesAppend(base, appended, "--embed-file");
  }

  /** For the module's own base flags: one output file, at most one embedded
      directory (exactly for the full variant) and one EXPORT_NAME setting. */
  lemma BuildConfigFlags(variant: string)
    requires IsKnownVariant(variant)
    ensures var flags := BuildConfigOf(variant).value.flags;
      && Occurrences(flags, "-o") == 1
      && Occurrences(flags, "--embed-file") == (if variant == "full" then 1 else 0)
      && forall i :: 0 <= i < |flags| && StartsWith(flags[i], "EXPORT_NAME=") ==>
           i == |BASE_EMSCRIPTEN_FLAGS| + 1
  {
    BaseLacksOutputAndEmbedFlags();
    BaseSetsNoExportName();
    OutputFileFlag(BASE_EMSCRIPTEN_FLAGS, variant);
    EmbedFileOnlyForFull(BASE_EMSCRIPTEN_FLAGS, variant);
    ExportNameFlag(BASE_EMSCRIPTEN_FLAGS, variant);
  }
}
