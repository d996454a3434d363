# PDFium WebAssembly build configuration

This project models `get_build_config` from the PDFium WebAssembly build
script, together with the constants it reads. Given a variant name, the
function builds the configuration record used to invoke the Emscripten
compiler. There are two variants. `"full"` embeds the font directory into
the module's virtual filesystem. `"lite"` leaves fonts to be loaded at run
time. Any other name raises `ValueError`.

The model lives in one module, `Config` (`config.dfy`):

- `BASE_EMSCRIPTEN_FLAGS`, `EMBED_FONTS_DIR` and `EMBED_FONTS_TARGET` are
  constants with the script's values.
- `BuildConfig` is the five-entry configuration record. `Result` carries
  either a record or the `ValueError` with its message.
- `FlagList` stands for a mutable list object. `Copy` gives a fresh list,
  and `Extend` appends to a list in place.
- `BuildConfigFrom(base, variant)` is the reference definition over any base
  flag list. `BuildConfigOf` applies it to the real base list.
- `GetBuildConfig` follows the script step by step. It takes the global base
  list object, copies it, and extends the copy with two `Extend` calls for
  "lite" or three for "full". A rejected variant makes no call. It has no `modifies` clause, so Dafny's frame rules show
  that the global base list is left unchanged. If the code extended the
  global list instead of a copy, the method would fail to verify.

## Model

| member | source | states |
|---|---|---|
| `Config.GetBuildConfig` | pdfium-build/config.py:147-180 | The config built step by step equals the reference definition over the current contents of the base list. The method may not modify the global base list, because it copies the list before extending it. |
| `Config.IsKnownVariant` | pdfium-build/config.py:157 | The membership test on the pair of names holds exactly when the variant is "full" or "lite". |
| `Config.BuildConfigFrom` | pdfium-build/config.py:157-178 | Rejects exactly the variants other than "full" and "lite", with the message "Unknown variant: " followed by the variant. On success the record keeps the variant and derives both names from it. `embedFonts` holds exactly for "full". The flags start with the whole base list and are 4 (lite) or 6 (full) flags longer. |
| `Config.BuildConfigOf` | pdfium-build/config.py:147-180 | Over the module's own base flags, "full" gives exactly the record with output name "pdfium-full", export name "loadPdfiumFull", the base flags followed by the EXPORT_NAME pair, the `-o` pair and the embed pair, and `embedFonts` true. "lite" gives the record with "pdfium-lite", "loadPdfiumLite", the base flags followed by the two pairs, and `embedFonts` false. Every other name gives the "Unknown variant: " error. |
| `Config.FullConfig` | pdfium-build/config.py:160-178 | Over any base list, the full variant gives the record with the full names, the six appended flags in order, and `embedFonts` true. |
| `Config.LiteConfig` | pdfium-build/config.py:160-173 | Over any base list, the lite variant gives the record with the lite names, the four appended flags in order, and `embedFonts` false. |
| `Config.OutputName` | pdfium-build/config.py:162 | The output name is "pdfium-" followed by exactly the variant. |
| `Config.ExportName` | pdfium-build/config.py:163 | The export name is "loadPdfiumFull" for "full" and "loadPdfiumLite" for any other accepted variant. |
| `Config.AppendedInOrder` | pdfium-build/config.py:168-178 | After the base flags come `"-s"` and the EXPORT_NAME setting, then `"-o"` and the output file. For "full", the list then ends with `"--embed-file"` and `"/embed-fonts@/fonts"`. For "lite", it ends after the output file. |
| `Config.OutputFileFlag` | pdfium-build/config.py:171-172 | If the base list has no `"-o"`, then `"-o"` occurs exactly once in the flags, right after the EXPORT_NAME pair, and under the same condition every `"-o"` is followed by the output name plus ".js". |
| `Config.ExportNameFlag` | pdfium-build/config.py:163-169 | The export name depends on the variant as above. If no base flag sets EXPORT_NAME, the only flag starting with "EXPORT_NAME=" is the appended one. It comes right after a `"-s"` and names the variant's loader. |
| `Config.EmbedFileOnlyForFull` | pdfium-build/config.py:174-178 | If the base list has no `"--embed-file"`, the flags hold `"--embed-file"` once for "full" and never for "lite". For "full", the last two flags are `"--embed-file"` and the mapping from EMBED_FONTS_DIR to EMBED_FONTS_TARGET. |
| `Config.BaseLacksOutputAndEmbedFlags` | pdfium-build/config.py:116-144 | The base flags contain neither `"-o"` nor `"--embed-file"`. |
| `Config.BaseSetsNoExportName` | pdfium-build/config.py:116-144 | No base flag starts with "EXPORT_NAME=". |
| `Config.BuildConfigFlags` | pdfium-build/config.py:116-178 | With the real base flags, the output file is given exactly once. `"--embed-file"` occurs once for "full" and zero times for "lite". The only EXPORT_NAME setting sits right after the base flags. |
| `Config.FlagList.Copy` | pdfium-build/config.py:164 | The copy is a fresh list with the same items, so it cannot alias the global list. |
| `Config.FlagList.Extend` | pdfium-build/config.py:169-178 | The list becomes its old items followed by the given ones, in order. |

## Left out

- `PDFIUM_VERSION`, `EXPORTED_FUNCTIONS`, `EXPORTED_RUNTIME_METHODS` and `DEFAULT_FONT_PATHS` are constant data that `get_build_config` never reads, so the model does not include them.
- The meaning of the Emscripten flags and the compiler run itself are outside this code. The model stops at the list of flags.
- The configuration dictionary is a record with the five keys the script sets. Other dictionary operations are not modelled.
- The variant is typed as a string, as the script annotates it. A non-string argument is not modelled. One that compares unequal to both names is rejected like any unknown string. An object with its own equality that compares equal to "full" or "lite" would pass the membership test and reach the name formatting; the model does not cover such objects.
