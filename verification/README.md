# avogenerators in Dafny

Avogadro's input generators are small scripts, one per quantum-chemistry
engine: ORCA, MOPAC, Gaussian, Psi4 and PySCF. Each script answers three
questions from the host.

- `getOptions` publishes an option schema. This is an ordered list of typed
  option descriptors (string, integer with optional bounds, boolean, string
  list with a default index or literal), optionally grouped into tabs.
- `generateInputFile` turns the user's option values into the text of an
  engine input file. Somewhere in that text it leaves the geometry
  placeholder `$$coords:<tag>$$`, which the host later replaces with the
  atoms. The tag names the coordinate format the engine wants.
- `generateInput` wraps that text in a response: the file named after the
  user's "Filename Base" and the engine's extension, the name of the main
  file, the raw request as a second file when debugging, and any warnings.

This project models those three parts for all five engines and proves what
each promises.

## Layout

| module | file | what it holds |
|---|---|---|
| `Results` | results.dfy | `Result`/`Option` and the error kinds the scripts raise: an unhandled option value, a missing table key, a division by zero, an unhandled multiplicity |
| `Decimal` | decimal.dfy | Python's `str(int)` and `%d`, with a parser proving the rendering loses nothing |
| `Text` | text.dfy | occurrence counting, the placeholder, `str.replace(c, '')`, substring tests |
| `Schema` | schema.dfy | option descriptors, what a descriptor admits, defaults |
| `Envelope` | envelope.dfy | the response a generator hands back |
| `Orca`, `Mopac`, `Gaussian`, `Psi4`, `Pyscf` | orca.dfy, mopac.dfy, gaussian.dfy, psi4.dfy, pyscf.dfy | one module per script |

Each engine module follows the same shape.

- An `Options` record holds one field per schema option. `Valid(o)` says
  that every field meets its descriptor.
- `Compile(o)` builds a record of what each part of the input file says.
  Every block written only under a condition is an `Option` or a flag.
  Every `raise` of the script is an `Err`, so `Compile` is total: an
  enumerated value the script does not handle is an input, not a
  precondition.
- `Render` lays the record out as the exact text the script writes.
  `GenerateInputFile` is `Render` after `Compile`.
- `GenerateInput` is `generateInput` without standard input and JSON. The
  options, the raw request text and the debug flag are parameters.

The geometry placeholder is text like any other. A title such as
`$$coords:Sxyz$$` would put a second one into the file. The "exactly one
placeholder" lemmas therefore assume that the free-text options contain no
`$`. Under that hypothesis they prove the count for every option set that
compiles.

Three behaviours of the scripts are worth stating plainly.

- The scripts do not validate option values. The model keeps validity as a
  separate predicate and proves `Valid(o) ==> Compile(o).Ok?`. It does not
  put validity into preconditions.
- In pyscf.py the "3-21g" respelling is overwritten by the following
  `if`/`else` on "cc-pvdz", which writes "3-21g" back. Only "cc-pvdz" is
  respelled, to "ccpvdz" (`Pyscf.BasisSpelling`).
- "Exactly one placeholder" holds only under the `$` hypothesis above.

## Model

| member | source | states |
|---|---|---|
| Decimal.NatToString | gaussian.py:154 | the decimal text of a natural number is non-empty, all digits, and has no leading zero unless it is "0" |
| Decimal.ParseNatToString | gaussian.py:154 | parsing the decimal text of a natural number gives the number back |
| Decimal.IntToString | gaussian.py:154 | the text of an integer starts with '-' exactly when it is negative, and is otherwise digits; it has no leading zero: it starts with '0' only when it is "0", and a minus sign is never followed by '0' |
| Decimal.IntToStringRoundTrip | gaussian.py:154 | the text of any integer is a numeral that parses back to the same integer |
| Decimal.IntToStringInjective | gaussian.py:154 | distinct charges or multiplicities are written differently |
| Decimal.IntToStringHasNoDollar | orca.py:315-317 | a number written into a file never contains the placeholder delimiter '$' |
| Text.ContainsIffOccursAt | psi4.py:133 | Python's `in` on strings holds exactly when the pattern occurs at some position |
| Text.PlaceholderOnce | gaussian.py:157 | a placeholder between two '$'-free texts occurs exactly once in the result |
| Text.Without | gaussian.py:128 | `replace(c, '')` leaves no `c`, keeps every other character that was there and adds none, and never lengthens the text |
| Text.WithoutSingle | gaussian.py:128 | a one-character text loses that character exactly when it is `c` and is otherwise kept |
| Text.WithoutAppend | gaussian.py:128 | deleting `c` from two joined texts is deleting it from each and joining the results, so order and every other character are kept |
| Text.WithoutIdempotent | gaussian.py:128 | deleting the spaces twice is the same as deleting them once |
| Text.WithoutAbsent | gaussian.py:128 | a basis name without spaces is written unchanged |
| Text.Concat | pyscf.py:137-138 | a character appears in the joined lines exactly when it appears in one of them |
| Text.ConcatSingle | pyscf.py:137-138 | joining one line gives that line |
| Text.ConcatAppend | pyscf.py:137-138 | joining two runs of lines one after the other is joining each and concatenating, so the lines appear whole and in order |
| Schema.DefaultValue | orca.py:39-50 | the default a descriptor names, by index or literally, is a value the descriptor admits |
| Schema.DefaultString | mopac.py:62-80 | the default of a string list is one of its values, the indexed entry when given by index |
| Envelope.Assemble | orca.py:367-378 | the main file is base name "." extension and is the first file with the generated text; the debug file follows only with the debug flag; warnings are present exactly when there are any; `mainFile` names exactly one file |
| Orca.UserOptionsWellFormed | orca.py:18-201 | every default of the Basic and Dynamics tabs satisfies its own descriptor |
| Orca.BasicDefaultsValid | orca.py:18-173 | the default option set meets every descriptor of the Basic tab |
| Orca.DefaultsValid | orca.py:18-201 | the default option set meets every descriptor of both tabs |
| Orca.BasisTablesCoverSchema | orca.py:222-260 | every basis the schema offers has an entry in both auxiliary-basis tables |
| Orca.TruncatedQuotient | orca.py:213 | `int(a / b)` truncates toward zero: for every sign its magnitude is the largest `k` with `k*|b| <= |a|`, its sign follows the operands' signs, and for non-negative `a` and positive `b` it is the largest `q` with `q*b <= a` |
| Orca.CalculationKeyword | orca.py:263-275 | a calculation type is accepted exactly when the schema lists it; otherwise it is an unhandled-option error naming it; the keyword is MD exactly for Dynamics |
| Orca.CalculationKeywordTable | orca.py:263-275 | each listed calculation type maps to the keyword in the same position: SP, Opt, Opt Freq, OptTS, MD |
| Orca.AuxiliaryBasis | orca.py:288-302 | with RI off (None, NORI) nothing is appended whatever AutoAux says; otherwise the basis must be in the RIJ table (RIJONX, RIJCOSX) or the RIJK table (anything else), or it is a key error, and the token is AutoAux when set, else the table's entry |
| Orca.Compile | orca.py:204-304 | compiles exactly when the core count is non-zero, the calculation type is handled and (RI off or the basis is in the chosen table); zero cores is a division by zero; nprocs is the core count; maxcore is memory*1024 divided by cores, rounded down; the %md block appears exactly for Dynamics and carries the five AIMD options verbatim; %output follows the orbital flag; the calculation keyword is the one the calculation type maps to; title, charge and multiplicity pass through unchanged; an unhandled calculation type (with non-zero cores) is the error naming it; with RI on, a basis missing from the chosen table is the key error naming the basis |
| Orca.CompilesWhenValid | orca.py:204-304 | every schema-valid option set compiles |
| Orca.RiOffForcesAutoAuxOff | orca.py:288-304 | with RI off, flipping AutoAux changes nothing, the basis token is the bare basis, and the theory carries no RI suffix |
| Orca.RiOnSelectsAuxiliaryBasis | orca.py:291-304 | with RI on, the basis token is the basis plus "AutoAux" when set, else plus the RIJ or RIJK entry, and the theory ends in " " + the RI name |
| Orca.SolvationKeywordAndBlock | orca.py:277-281 | CPCM names the solvent on the keyword line and writes no %cpcm block; SMD writes a bare CPCM keyword and names the solvent in the %cpcm block; without a solvent neither appears |
| Orca.GasPhaseIsTheNoneEntry | orca.py:278-280 | the "None" test is a substring test: "None (gas)" is the gas phase, while "-" counts as a solvent |
| Orca.PlaceholderSpelling | orca.py:347 | ORCA's placeholder is `$$coords:___Sxyz$$` |
| Orca.RenderFrame | orca.py:306-350 | the file starts with the banner and the "!" keyword line and ends with the "* xyz" charge line, the placeholder and the closing "*" |
| Orca.GenerateInputFile | orca.py:204-350 | a file is produced exactly when the options compile; zero cores gives the division error; an unhandled calculation type with non-zero cores names that type; with RI on, a basis missing from the chosen table is the key error naming the basis |
| Orca.FilePlaceholderOnce | orca.py:309-348 | whichever of the %cpcm, %md and %output blocks a file has, it holds exactly one placeholder when its text fields are '$'-free |
| Orca.OnePlaceholder | orca.py:309-348 | a compiled file with '$'-free free-text options holds exactly one geometry placeholder |
| Orca.EndsWithCoordinateBlock | orca.py:346-348 | every file ends with the `* xyz charge multiplicity` line, the placeholder, the closing star and two blank lines |
| Orca.GenerateInput | orca.py:353-378 | the response exists exactly when the file compiles, and zero cores yields the division error instead of any file; it is named base name ".inp", holds the text as its first file, the debug file only with the debug flag, and no warnings |
| Mopac.UserOptionsWellFormed | mopac.py:17-96 | every default satisfies its own descriptor, including the literal defaults "Water" and "RHF" |
| Mopac.Defaults | mopac.py:17-96 | the default option set meets every descriptor |
| Mopac.DielectricTableCoversSchema | mopac.py:111-123 | every solvent the schema offers other than OTHER has a dielectric constant |
| Mopac.SpinState | mopac.py:127-142 | multiplicities 1 to 6 map to SINGLET through SEXTET in order; any other is an unhandled-multiplicity error naming it |
| Mopac.CalculationKeyword | mopac.py:144-155 | a calculation type is accepted exactly when the schema lists it, else it is an error naming it; the keyword is empty exactly for an equilibrium geometry |
| Mopac.CalculationKeywordTable | mopac.py:144-155 | each listed calculation type maps to the keyword in the same position: NOOPT, none, FORCE, SADDLE |
| Mopac.Dielectric | mopac.py:157-162 | OTHER takes the user's dielectric text; any other solvent must be in the table, or it is a key error naming it |
| Mopac.Compile | mopac.py:99-181 | compiles exactly when the multiplicity is 1 to 6, the calculation type is handled, and the solvent is OTHER or tabulated; the spin word is the multiplicity's entry in the spin table; an EPS= value is present exactly with COSMO; a multiplicity above one writes UHF; a single point uses the Sx0y0z0 tag, anything else Sx1y1z1; the calculation keyword is the one the calculation type maps to; charge, thread count (the cores), method and title pass through unchanged; a multiplicity outside 1 to 6 is the unhandled-multiplicity error; with a good multiplicity an unhandled calculation type is the error naming it, and then an untabulated solvent other than OTHER is the key error naming it |
| Mopac.CompilesWhenValid | mopac.py:99-181 | every schema-valid option set compiles |
| Mopac.SolventLookedUpWithoutCosmo | mopac.py:157-165 | the solvent is looked up whether or not COSMO is on, so an unknown solvent fails the job even when no EPS= would be written |
| Mopac.EpsIffCosmo | mopac.py:164-165 | the keyword line carries EPS= exactly with COSMO: the user's text for OTHER, the table's entry otherwise |
| Mopac.WaterDielectric | mopac.py:123 | water with COSMO writes EPS=80.1 |
| Mopac.HighSpinForcesUhf | mopac.py:167-168 | above multiplicity one the HF Type option is ignored and UHF is written |
| Mopac.RenderFrame | mopac.py:170-183 | the deck starts with the keyword line, the title and a blank line, and ends with the placeholder line |
| Mopac.GenerateInputFile | mopac.py:99-183 | a deck is produced exactly when the options compile; a multiplicity outside 1 to 6 gives the unhandled-multiplicity error naming it; with a good multiplicity an unhandled calculation type is the error naming it, and then an untabulated solvent is the key error naming it |
| Mopac.DeckPlaceholderOnce | mopac.py:170-181 | a deck whose text fields are '$'-free holds exactly one placeholder with its own tag |
| Mopac.OnePlaceholder | mopac.py:177-181 | a compiled deck with '$'-free free-text options holds exactly one placeholder, with the tag for its calculation type |
| Mopac.GenerateInput | mopac.py:186-211 | the response exists exactly when the deck compiles, and a multiplicity outside 1 to 6 yields the unhandled-multiplicity error instead of any file; it is named base name ".mop", with the debug file only with the flag and no warnings |
| Gaussian.UserOptionsWellFormed | gaussian.py:19-94 | every default satisfies its own descriptor |
| Gaussian.Defaults | gaussian.py:19-94 | the default option set meets every descriptor |
| Gaussian.DefaultsSpelledOut | gaussian.py:22-88 | the defaults are: empty title, Equilibrium Geometry, B3LYP, 6-31G(d), no alternate basis, "job", 8 cores, 28 GB, multiplicity 1, charge 0, Standard output, checkpoint on |
| Gaussian.CalculationKeyword | gaussian.py:131-138 | a calculation type is accepted exactly when the schema lists it, else it is an error naming it; the route suffix is a space and a keyword |
| Gaussian.FormatKeyword | gaussian.py:141-148 | an output format is accepted exactly when the schema lists it, else it is an error naming it; only Standard adds nothing |
| Gaussian.KeywordTables | gaussian.py:131-148 | each listed calculation type and output format maps to the suffix in the same position |
| Gaussian.Compile | gaussian.py:97-157 | compiles exactly when calculation type and output format are handled; %NProcShared appears exactly above one core; memory and the checkpoint line follow their options; a semi-empirical method (AM1, PM3) gets no basis and one warning; any other method gets the chosen basis (alternate or listed) without spaces and no warning; the calculation and format keywords are the ones their options map to; method, title, charge and multiplicity pass through unchanged; the calculation type is checked first, and an unhandled one is the error naming it; a handled calculation type with an unhandled output format is the error naming the format |
| Gaussian.CompilesWhenValid | gaussian.py:97-164 | every schema-valid option set compiles |
| Gaussian.SemiEmpiricalIgnoresBasis | gaussian.py:124-126 | for AM1 and PM3 the route line is "#p", the method and the suffixes with no basis; changing the listed basis, the alternate-basis flag or the alternate name changes nothing in the compiled file or its warnings; the basis-ignored warning is reported |
| Gaussian.BasisWrittenWithoutSpaces | gaussian.py:128 | the basis on the route line has no spaces, and a chosen basis without spaces is written unchanged |
| Gaussian.FilePlaceholderOnce | gaussian.py:112-164 | a file whose text fields are '$'-free holds exactly one placeholder, with or without the NProcShared, checkpoint and basis parts |
| Gaussian.RenderFrame | gaussian.py:112-164 | the file starts with the Link 0 lines and the route line and ends with the placeholder and the closing blank line |
| Gaussian.GenerateInputFile | gaussian.py:97-164 | a file is produced exactly when calculation type and output format are handled; it carries the basis-ignored warning exactly for a semi-empirical method; an unhandled calculation type is the error naming it, checked before the output format, whose error names the format |
| Gaussian.OnePlaceholder | gaussian.py:112-164 | a compiled file with '$'-free free-text options holds exactly one placeholder |
| Gaussian.EndsWithBlankLine | gaussian.py:157-162 | every file ends with the placeholder line and the extra blank line Gaussian needs |
| Gaussian.GenerateInput | gaussian.py:167-196 | the response exists exactly when the file compiles; it is named base name ".gjf"; a warnings entry is present exactly for a semi-empirical method and then holds the one basis-ignored warning |
| Gaussian.DefaultSinglePoint | gaussian.py:97-196 | the default job switched to a single point produces exactly the file "job.gjf" with the Link 0 lines for 8 cores, 28 GB and a checkpoint, the B3LYP/6-31G(d) SP route, charge 0 and multiplicity 1, the placeholder and the blank line, and no warnings |
| Psi4.UserOptionsWellFormed | psi4.py:18-91 | every default satisfies its own descriptor |
| Psi4.Defaults | psi4.py:18-91 | the default option set meets every descriptor |
| Psi4.Driver | psi4.py:110-118 | a calculation type is accepted exactly when the schema lists it, else it is an error naming it; the driver is optimize exactly for a geometry optimization |
| Psi4.DriverTable | psi4.py:110-118 | each listed calculation type maps to the driver in the same position: energy, optimize, frequencies |
| Psi4.Compile | psi4.py:94-136 | compiles exactly when the calculation type is handled; threads and memory are the options; the basis is the alternate name when chosen (spaces kept); the optking block appears exactly for a geometry optimization; auto_fragments appears exactly when the method's name contains SAPT; the driver is the one the calculation type maps to; method, charge and multiplicity pass through unchanged |
| Psi4.CompilesWhenValid | psi4.py:94-138 | every schema-valid option set compiles |
| Psi4.TitleIgnored | psi4.py:96 | the title never reaches the input |
| Psi4.SaptFragments | psi4.py:133-134 | auto_fragments is written exactly when "SAPT" occurs at some position of the method name, so every SAPT method gets it |
| Psi4.OpensWithResources | psi4.py:122-124 | the input opens with the thread count, the memory in GB and the chosen basis |
| Psi4.FilePlaceholderOnce | psi4.py:120-136 | an input whose text fields are '$'-free holds exactly one placeholder, with or without the optking and auto_fragments lines |
| Psi4.RenderFrame | psi4.py:120-138 | the input starts with the resource and basis lines and ends with the driver call |
| Psi4.GenerateInputFile | psi4.py:94-138 | an input is produced exactly when the calculation type is handled; otherwise the error names that type |
| Psi4.OnePlaceholder | psi4.py:120-136 | a compiled input with '$'-free basis and method names holds exactly one placeholder |
| Psi4.EndsWithDriverCall | psi4.py:136 | the input ends by calling the driver on the chosen method |
| Psi4.GenerateInput | psi4.py:141-166 | the response exists exactly when the input compiles; it is named base name ".in", with no warnings |
| Pyscf.UserOptionsWellFormed | pyscf.py:21-63 | every default satisfies its own descriptor, and the schema asks the host for the molecule as CJSON |
| Pyscf.Defaults | pyscf.py:21-63 | the default option set meets every descriptor |
| Pyscf.BasisName | pyscf.py:75-86 | a basis is accepted exactly when listed, else it is an error naming it; only cc-pvdz is respelled, and the written name lacks '-' exactly for cc-pvdz |
| Pyscf.BasisSpelling | pyscf.py:76-84 | STO-3G and 3-21g are written as listed; cc-pvdz is written ccpvdz |
| Pyscf.MethodLines | pyscf.py:88-117 | a method is accepted exactly when listed, else it is an error naming it; RHF, ROHF and UHF build that SCF object in one line and run it in the next (ROHF's run line is "Amf.kernel()", the others "mf.kernel()"); MP2 writes its comment, builds RHF for a singlet and UHF otherwise, runs it with "mf.kernel()", then builds MP2 on it and runs it with "mf2.kernel()" |
| Pyscf.RohfKernelLine | pyscf.py:91-102 | ROHF's run line is `Amf.kernel()`, while RHF and UHF run `mf.kernel()` |
| Pyscf.Mp2Reference | pyscf.py:103-115 | the MP2 reference is RHF exactly for a singlet and UHF exactly otherwise |
| Pyscf.Compile | pyscf.py:66-123 | compiles exactly for a listed basis, a listed method and a single point; an unlisted basis is reported before an unlisted method; the spin is multiplicity minus one; the import adds mp exactly for MP2; the basis is the listed name's spelling and the method lines are those of the chosen method; title and charge pass through unchanged |
| Pyscf.CompilesWhenValid | pyscf.py:66-139 | every schema-valid option set compiles |
| Pyscf.OnlySinglePoint | pyscf.py:119-123 | any calculation type other than a single point is refused, even when everything else is fine |
| Pyscf.CjsonIgnored | pyscf.py:66-139 | the script does not depend on the CJSON document |
| Pyscf.ScriptPlaceholderOnce | pyscf.py:126-139 | a script whose text fields and method lines are '$'-free holds exactly one placeholder |
| Pyscf.RenderFrame | pyscf.py:125-139 | the script starts with the title comment and the imports and ends with the method lines, whole and in order |
| Pyscf.GenerateInputFile | pyscf.py:66-139 | a script is produced exactly for a listed basis, a listed method and a single point; an unlisted basis is the error reported |
| Pyscf.OnePlaceholder | pyscf.py:126-139 | a compiled script with a '$'-free title holds exactly one placeholder |
| Pyscf.GenerateInput | pyscf.py:142-168 | the response exists exactly when the script compiles; it is named base name ".py", with no warnings |

## Left out

- Standard input, JSON parsing and printing, the command-line flags, `--lang` and `--display-name` are left out. `GenerateInput` takes the parsed options, the raw request text and the debug flag as parameters.
- The module-level `debug` flag is a parameter of `GenerateInput`.
- Gaussian's module-level `warnings` list is not modelled as shared state. Warnings are returned per call, so warnings from one job cannot reach the next in the model. A job that fails after its warning was appended returns only the error.
- Python's `int(...)` conversions of the core count and memory are not modelled. These options are integers in the model.
- ORCA's `(Memory * 1024) / nCores` is float division followed by `int`. It is modelled as exact integer division truncated toward zero, so float rounding on very large values is not modelled.
- MOPAC's dielectric constants are stored as the text Python's `str` prints for each float. They are not computed from floats.
- The texts of the scripts' exception messages are not modelled. An error carries its kind, the option name and the offending value. The PySCF theory and calculation-type messages drop the value, because their `format` strings have no placeholder; the model keeps it.
- Tooltips and the `hide` flag are left out, because they only steer the host's user interface.
- String-list values are not checked for distinctness. ORCA's Solvation list names "Toluene" twice; the model keeps the list as written.
- PySCF's CJSON document is an opaque string that the script ignores.
- Mopac.DielectricTableCoversSchema: proves only that every offered solvent is tabulated. It does not prove the converse, that every tabulated solvent is offered.
- Orca.OnePlaceholder: assumes the free-text options contain no '$', because a title holding the placeholder text would add a second one.
- Mopac.OnePlaceholder: assumes the free-text options contain no '$', for the same reason.
- Gaussian.OnePlaceholder: assumes the free-text options contain no '$', for the same reason.
- Psi4.OnePlaceholder: assumes the basis and method names contain no '$', for the same reason.
- Pyscf.OnePlaceholder: assumes the title contains no '$', for the same reason.
