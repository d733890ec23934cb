# sekay automation scripts — decision rules in Dafny

The repository holds two automation scripts. Both are mostly calls into a host
program, but each contains a few pure decision rules. This project models those
rules and proves properties about them.

* `scripts/pw_scrape.py` drives a browser against one download site. The model
  covers how it builds the request payload text from CBOR bytes (`cbor_to_list`
  and the comma-list). It also covers how it finds the download-page path in the
  decoded response array: the "domain" scan, the look-back three places before
  the domain's first occurrence with Python's negative-index wrap-around, the
  fallback to the last 21-character string, and the falsy check before the URL
  is built. Finally it covers how the saved file name comes from the first
  `\d+\.\d+\.\d+` match of the suggested file name.
* `scripts/ida_with_struct_py3_cli.py` applies an Il2CppDumper dump to an IDA
  database. The model covers `get_addr`, the two-attempt `set_name`, the
  end-clamping `make_function`, the pairing of consecutive offsets into function
  ranges, `StringLiteral_<i+1>` naming, the category guards and their fixed order,
  and the upper-case hex comment. The host is an oracle `(history, call) -> int`:
  its reply to a call may depend on every earlier call, and the model is the
  sequence of calls the script makes.

Modules: `Wrappers` (Option/Result), `Numerals` (Python `str(int)`, `f'{n:X}'`,
`int(s, base)`), `PyText` (`str.split`/`str.join`), `Payload`, `JsonValue`
(decoded JSON with Python truthiness and `str()`), `Locator`, `VersionLabel`,
`IdaHost`, `IdaBatch`.

Some points of the code that the model follows closely: `make_function` clamps
the end before it checks for an existing function at `start`. A rename attempt
counts as failed only when the host returns exactly 0. The metadata block skips `apply_type` for an absent, `null` or empty
signature. The method block calls `apply_type` for every method.

## Model

| member | source | states |
|---|---|---|
| Payload.CborToList | scripts/pw_scrape.py:16-18 | one integer per payload byte, and the i-th integer equals the i-th byte |
| Payload.ByteHex | scripts/pw_scrape.py:17-18 | `bytes.hex()` writes a byte as two hex digits, and `int(_, 16)` reads them back as that byte |
| Payload.CborListRoundTrip | scripts/pw_scrape.py:16-18 | turning the list back into bytes reproduces the payload exactly |
| Payload.PayloadText | scripts/pw_scrape.py:70 | the form-field text contains only ASCII digits and commas. For a non-empty payload, splitting it on ',' and parsing each piece as decimal gives back the byte list and the bytes. An empty payload gives the empty text |
| Payload.DecimalListRoundTrip | scripts/pw_scrape.py:70 | the comma-joined decimals of a non-empty list of numbers parse back to the list |
| Payload.EmptyPayloadTextDoesNotParse | scripts/pw_scrape.py:70 | an empty payload gives the empty text, which does not parse back (`"".split(",")` is `[""]`) |
| Payload.ParseAll | scripts/pw_scrape.py:70 | a comma-list parses exactly when every piece is a decimal numeral, and then piece by piece |
| Numerals.ToRadixRoundTrip | scripts/pw_scrape.py:70 | `int(str(n))` is `n` for the canonical numeral of `n` in any radix from 2 to 16 |
| Numerals.Decimal | scripts/pw_scrape.py:70 | `str(n)` is a non-empty digit string without leading zero that reads back as `n` |
| PyText.JoinSplit | scripts/pw_scrape.py:70 | joining the pieces of a split with the same separator gives back the string |
| PyText.SplitJoin | scripts/pw_scrape.py:70 | splitting a join of at least one separator-free piece gives back the pieces |
| PyText.Split | scripts/pw_scrape.py:102 | `split` returns at least one separator-free piece, and at least two exactly when the separator occurs |
| Locator.FindLast | scripts/pw_scrape.py:101-105 | the reversed-scan-with-break picks the last element satisfying the test, or none when none does |
| Locator.DomainShapeIsDot | scripts/pw_scrape.py:102 | `len(obj.split(".")) >= 2` on a string means the string contains a dot |
| Locator.FindDomain | scripts/pw_scrape.py:100-105 | the domain is the last string with a dot, and `None` exactly when there is none |
| Locator.IndexOf | scripts/pw_scrape.py:107 | `list.index` finds the first occurrence, and fails exactly when the value is absent |
| Locator.PrimaryAttempt | scripts/pw_scrape.py:98-110 | `index` raises ValueError exactly when no string has a dot and no element is `None`. IndexError happens exactly in a list of one or two elements whose first element is the domain. A hit is a non-`None` element of the list. The path is `None` after a miss exactly when the looked-up element was `None`, and `""` otherwise |
| Locator.LookBack | scripts/pw_scrape.py:107-110 | the path is the element three places before the domain's first index, wrapping from the end when that index is below 3. An IndexError happens exactly when the index minus 3 is below `-len`. A `None` element becomes a miss that carries `None` |
| Locator.NoDomainSearchesNone | scripts/pw_scrape.py:100-107 | with no domain, the look-back starts from the first `None` element |
| Locator.FallbackScan | scripts/pw_scrape.py:111-118 | the fallback picks the last string of length 21, or keeps the earlier value when there is none |
| Locator.FinalPath | scripts/pw_scrape.py:98-122 | a primary hit is kept. After a miss the path is the last 21-character string, or a falsy value when there is none |
| Locator.DownloadPageUrl | scripts/pw_scrape.py:107-128 | every URL starts with the app page and "/dl/". A primary hit is final: it succeeds exactly when truthy, and its `str()` ends the URL. After any of the three misses it succeeds exactly when a 21-character string exists, and the last one ends the URL |
| JsonValue.Truthy | scripts/pw_scrape.py:125 | `not x` holds exactly for `None`, `False`, `0`, `""`, `[]` and `{}` |
| JsonValue.PyStr | scripts/pw_scrape.py:128 | a string prints as itself. Any other value prints as non-empty text: `None` as "None", the booleans as "True" and "False", an integer as its decimal digits without leading zero that read back, after a minus sign when negative |
| VersionLabel.RunEnd | scripts/pw_scrape.py:148 | a greedy `\d+` stops at the end of the maximal digit run |
| VersionLabel.MatchAtMatches | scripts/pw_scrape.py:148-149 | a successful match attempt at a position is a match of the pattern |
| VersionLabel.MatchAtIsLongest | scripts/pw_scrape.py:148-149 | every match starting at a position is found by the attempt there, and ends no later |
| VersionLabel.MatchAtIsLeftLongest | scripts/pw_scrape.py:148-149 | the attempt at a position fails exactly when no match starts there, and otherwise returns the longest match |
| VersionLabel.SearchFromIsLeftmostLongest | scripts/pw_scrape.py:148-149 | `re.search` returns the leftmost match, taken as long as it can be, and nothing when the pattern does not occur |
| VersionLabel.Label | scripts/pw_scrape.py:148-155 | the version label is the leftmost-longest `N.N.N` match, or "unknown_" plus the file name exactly when there is none. It is never empty and never starts with '/' |
| VersionLabel.SavedFileName | scripts/pw_scrape.py:157 | the saved name is the label plus ".ipa" and never starts with '/' |
| VersionLabel.SavePath | scripts/pw_scrape.py:157 | `os.path.join` puts the saved name directly under the downloads directory |
| IdaHost.GetAddrShifts | scripts/ida_with_struct_py3_cli.py:18-21 | the resolved address is the image base plus the offset, and moving the image base moves it by the same amount |
| Numerals.IntDecimal | scripts/ida_with_struct_py3_cli.py:26 | `str(addr)` has only decimal digits, no leading zero, and reads back as the address. A negative address gets a minus sign before the digits of its magnitude |
| IdaHost.FallbackName | scripts/ida_with_struct_py3_cli.py:26 | the retry name differs from the name, extends it with '_', and ends in the address as `str()` writes it: decimal digits without leading zero that read back, after a minus sign when negative |
| IdaHost.SetNameCalls | scripts/ida_with_struct_py3_cli.py:23-27 | at most two rename attempts. The second happens only when the first returned 0, and it uses `<name>_<decimal addr>` |
| IdaHost.MakeFunctionCalls | scripts/ida_with_struct_py3_cli.py:29-35 | the new function ends at min(end, next function start). `del_func` runs, as the third of four calls, exactly when a function starts at `start`. `add_func` is the last call |
| IdaBatch.FunctionRanges | scripts/ida_with_struct_py3_cli.py:70-77 | for n offsets there are max(n-1, 0) ranges, the i-th from resolved offset i to resolved offset i+1 |
| IdaBatch.FunctionRangesShift | scripts/ida_with_struct_py3_cli.py:18-21 | moving the image base moves every function range by the same amount |
| IdaBatch.AddressBlockRanges | scripts/ida_with_struct_py3_cli.py:70-79 | the Addresses block adds exactly max(n-1, 0) functions, in order. The i-th starts at resolved offset i and ends no later than resolved offset i+1 |
| IdaBatch.MethodCalls | scripts/ida_with_struct_py3_cli.py:86-94 | a method is renamed, then typed with its signature at its address, once, whatever the rename returned |
| IdaBatch.MethodBlockTypes | scripts/ida_with_struct_py3_cli.py:82-97 | the ScriptMethod block applies a type once per method, in dump order, whatever the renames returned |
| IdaBatch.StringLiteralName | scripts/ida_with_struct_py3_cli.py:108 | a string's name is "StringLiteral_" followed by the decimal of its position plus one, without leading zero |
| IdaBatch.StringLiteralNamesDistinct | scripts/ida_with_struct_py3_cli.py:105-108 | different positions give different names |
| IdaBatch.StringCalls | scripts/ida_with_struct_py3_cli.py:105-110 | a string gets two calls and no type: one `SN_NOWARN` rename to "StringLiteral_" and the decimal of its position plus one without leading zero, then its value as a repeatable comment |
| IdaBatch.StringBlockCalls | scripts/ida_with_struct_py3_cli.py:100-111 | the ScriptString block makes two calls per string with no retry: the name `StringLiteral_<k+1>`, then the value as a repeatable comment |
| IdaBatch.MetadataCalls | scripts/ida_with_struct_py3_cli.py:119-128 | a metadata entry is renamed, then commented with its name. It is typed, as one more call, exactly when its signature is non-empty; otherwise the comment is the last call |
| IdaBatch.MetadataBlockTypes | scripts/ida_with_struct_py3_cli.py:114-130 | the ScriptMetadata block applies types exactly to the entries with a non-empty signature, in dump order |
| Numerals.IntHexUpper | scripts/ida_with_struct_py3_cli.py:144 | `f'{n:X}'` uses only 0-9 and A-F, has no prefix and no leading zero, and reads back as `n`. A negative value gets a minus sign before the same digits of its magnitude |
| IdaBatch.MetaMethodCalls | scripts/ida_with_struct_py3_cli.py:138-145 | a metadata-method entry is renamed and commented with its name (repeatable). Then it is commented (non-repeatable) with its resolved method address in upper-case hex: 0-9 and A-F only, no prefix, no leading zero, reading back, with a minus sign when negative. No type is applied |
| IdaBatch.CategoriesRun | scripts/ida_with_struct_py3_cli.py:70-145 | the processed categories are exactly those present in the dump and listed in the fields, each once, in code order |
| IdaBatch.GuardedIsEnabledBlocks | scripts/ida_with_struct_py3_cli.py:70-145 | a skipped category makes no call |
| IdaBatch.Run | scripts/ida_with_struct_py3_cli.py:69-145 | the script's calls are the blocks of the processed categories, in code order, each block seeing the calls before it |
| IdaBatch.RunFieldsOrderFree | scripts/ida_with_struct_py3_cli.py:10-16 | only membership in `processFields` matters, not its order |
| IdaBatch.ProcessFieldsEnableAll | scripts/ida_with_struct_py3_cli.py:10-16 | with the script's own `processFields`, every category present in the dump is processed |

## Left out

- Browser automation is not modelled: launch, context, navigation, clicks, download capture and `save_as`. Neither are the fixed `time.sleep` waits or the Cloudflare title/URL check. These are I/O and timing against a live site.
- CBOR encoding (`cbor2.dumps`) is a foreign library, so the payload is any byte sequence. The `page.evaluate` fetch and its string substitution are I/O and are not modelled.
- `json.loads` is a foreign library. The response envelope check (`type == "success"`) is left out. The decoded `data` is taken to be a JSON array. A non-list `data` (which the script would index or iterate differently) is not represented.
- JSON numbers are integers in the model; floating-point numbers are not modelled.
- Python's `repr` is simplified: a string nested inside a list or object prints between single quotes without Python's escaping or its switch to double quotes. An object keeps every member in order, including a repeated key, where `json.loads` keeps only the last value of that key. This only matters for a non-string path that is a container.
- VersionLabel.RunEnd: `\d` is the ASCII digits. Python 3's `re` on `str` also matches other Unicode decimal digits.
- Numerals.ParseRadix: it accepts only plain digit strings. Python's `int()` also accepts a sign, surrounding whitespace, underscores and a `0x` prefix. None of these occur in text the scripts produce.
- The fallback's bare `except:` (printing and `exit(1)`) is not modelled: nothing inside the fallback loop can raise.
- IDA internals are abstract. The host oracle answers `set_name`, `get_next_func` and `get_func_attr(FUNCATTR_START)`. The model records `del_func`, `add_func`, `set_cmt` and `apply_type(parse_decl(...))` as calls only. `parse_decls`, `auto_wait` and `save_database` come before or after the batch and are left out. The success of `apply_type` only selects a log line, so it is not modelled.
- Dump records are typed, so a record missing a required key cannot be represented. The script would abort on it with a `KeyError`. The same goes for a `null` where a ScriptMethod record needs a string.
- `print_progress` is not modelled: it depends on wall-clock time and a floating-point percentage. The other progress and log `print`s are left out too.
- CLI setup is not modelled: the argument or file-picker choice, the file-existence checks and the `qexit` codes are process plumbing.
