/** The Gaussian input generator (gaussian.py): option schema, compiler and
    response assembly. The script collects warnings in a module-level list;
    here each compilation returns its own warnings next to the text.
 */
module Gaussian {
  import opened Results
  import opened Schema
  import opened Decimal
  import opened Text
  import Envelope

  // ---------------------------------------------------------------------
  // Option schema
  // ---------------------------------------------------------------------

  const TitleOption := StringOption("Title", "")
  const CalculationTypeOption := StringListOption("Calculation Type",
    ["Single Point", "Equilibrium Geometry", "Frequencies"], Index(1))
  const TheoryOption := StringListOption("Theory",
    ["AM1", "PM3", "RHF", "B3LYP", "WB97XD", "MP2", "CCSD"], Index(3))
  const BasisOption := StringListOption("Basis",
    ["STO-3G", "3-21G", "6-31G(d)", "6-31G(d,p)", "LANL2DZ", "cc-pVDZ", "cc-pVTZ",
     "cc-pVQZ", "cc-pV5Z", "cc-pV6Z", "aug-cc-pVDZ", "aug-cc-pVTZ", "aug-cc-pVQZ",
     "aug-cc-pV5Z", "aug-cc-pV6Z", "Def2SV", "Def2TZV", "Def2QZV", "Def2SVP", "Def2TZVP",
     "Def2QZVP", "Def2SVPP", "Def2TZVPP", "Def2QZVPP"], Index(2))
  const AlternateBasisOption := BooleanOption("Alternate Basis Set", false)
  const AlternateBasisNameOption := StringOption("Alternate Basis Set Name", "")
  const FilenameBaseOption := StringOption("Filename Base", "job")
  const CoresOption := IntegerOption("Processor Cores", 8, Some(1), None)
  const MemoryOption := IntegerOption("Memory", 28, Some(1), None)
  const MultiplicityOption := IntegerOption("Multiplicity", 1, Some(1), Some(5))
  const ChargeOption := IntegerOption("Charge", 0, Some(-9), Some(9))
  const OutputFormatOption := StringListOption("Output Format", ["Standard", "Molden", "Molekel"], Index(0))
  const CheckpointOption := BooleanOption("Write Checkpoint File", true)

  function UserOptions(): OptionSchema {
    OptionSchema(
      [ Tab(None,
            [TitleOption, CalculationTypeOption, TheoryOption, BasisOption, AlternateBasisOption,
             AlternateBasisNameOption, FilenameBaseOption, CoresOption, MemoryOption,
             MultiplicityOption, ChargeOption, OutputFormatOption, CheckpointOption]) ],
      None)
  }

  lemma UserOptionsWellFormed()
    ensures WellFormed(UserOptions())
  {
  }

  // ---------------------------------------------------------------------
  // Resolved options
  // ---------------------------------------------------------------------

  datatype Options = Options(
    title: string,
    calculationType: string,
    theory: string,
    basis: string,
    alternateBasis: bool,
    alternateBasisName: string,
    filenameBase: string,
    cores: int,
    memory: int,
    multiplicity: int,
    charge: int,
    outputFormat: string,
    writeCheckpoint: bool)

  predicate Valid(o: Options) {
    && Admits(TitleOption, StringValue(o.title))
    && Admits(CalculationTypeOption, StringValue(o.calculationType))
    && Admits(TheoryOption, StringValue(o.theory))
    && Admits(BasisOption, StringValue(o.basis))
    && Admits(AlternateBasisOption, BooleanValue(o.alternateBasis))
    && Admits(AlternateBasisNameOption, StringValue(o.alternateBasisName))
    && Admits(FilenameBaseOption, StringValue(o.filenameBase))
    && Admits(CoresOption, IntegerValue(o.cores))
    && Admits(MemoryOption, IntegerValue(o.memory))
    && Admits(MultiplicityOption, IntegerValue(o.multiplicity))
    && Admits(ChargeOption, IntegerValue(o.charge))
    && Admits(OutputFormatOption, StringValue(o.outputFormat))
    && Admits(CheckpointOption, BooleanValue(o.writeCheckpoint))
  }

  function Defaults(): (o: Options)
    ensures Valid(o)
  {
    Options(
      TitleOption.defaultText, DefaultString(CalculationTypeOption), DefaultString(TheoryOption),
      DefaultString(BasisOption), AlternateBasisOption.defaultFlag,
      AlternateBasisNameOption.defaultText, FilenameBaseOption.defaultText,
      CoresOption.defaultNumber, MemoryOption.defaultNumber, MultiplicityOption.defaultNumber,
      ChargeOption.defaultNumber, DefaultString(OutputFormatOption), CheckpointOption.defaultFlag)
  }

  // ---------------------------------------------------------------------
  // Compiler
  // ---------------------------------------------------------------------

  const BasisIgnoredWarning := "Ignoring basis set for semi-empirical calculation."

  /** Methods for which Gaussian takes no basis set. */
  predicate SemiEmpirical(theory: string) {
    theory == "AM1" || theory == "PM3"
  }

  /** The route-line suffix for a calculation type. */
  function CalculationKeyword(calculationType: string): (r: Result<string>)
    ensures r.Ok? <==> calculationType in CalculationTypeOption.values
    ensures r.Err? ==> r.error == UnhandledOption("Calculation Type", calculationType)
    ensures r.Ok? ==> |r.value| > 1 && r.value[0] == ' '
  {
    if calculationType == "Single Point" then Ok(" SP")
    else if calculationType == "Equilibrium Geometry" then Ok(" Opt")
    else if calculationType == "Frequencies" then Ok(" Opt Freq")
    else Err(UnhandledOption("Calculation Type", calculationType))
  }

  /** The route-line suffix that requests orbital output for a viewer. */
  function FormatKeyword(outputFormat: string): (r: Result<string>)
    ensures r.Ok? <==> outputFormat in OutputFormatOption.values
    ensures r.Err? ==> r.error == UnhandledOption("Output Format", outputFormat)
    ensures r == Ok("") <==> outputFormat == "Standard"
  {
    if outputFormat == "Standard" then Ok("")
    else if outputFormat == "Molden" then Ok(" gfprint pop=full")
    else if outputFormat == "Molekel" then Ok(" gfoldprint pop=full")
    else Err(UnhandledOption("Output Format", outputFormat))
  }

  /** The route-line suffixes, in the order the schema lists the options. */
  const CalculationKeywords := [" SP", " Opt", " Opt Freq"]
  const FormatKeywords := ["", " gfprint pop=full", " gfoldprint pop=full"]

  /** Each calculation type and output format the schema offers maps to the
      suffix in the same position. */
  lemma KeywordTables()
    ensures |CalculationKeywords| == |CalculationTypeOption.values|
    ensures forall i :: 0 <= i < |CalculationKeywords| ==>
      CalculationKeyword(CalculationTypeOption.values[i]) == Ok(CalculationKeywords[i])
    ensures |FormatKeywords| == |OutputFormatOption.values|
    ensures forall i :: 0 <= i < |FormatKeywords| ==>
      FormatKeyword(OutputFormatOption.values[i]) == Ok(FormatKeywords[i])
  {
  }

  /** The basis the user chose: the free-text name when Alternate Basis Set
      is on, the listed basis otherwise. */
  function ChosenBasis(o: Options): string {
    if o.alternateBasis then o.alternateBasisName else o.basis
  }

  /** What the generated Gaussian file says. */
  datatype InputFile = InputFile(
    nprocShared: Option<int>,   // %NProcShared= line
    memory: int,                // %mem= line, in GB
    checkpoint: bool,           // %Chk= line
    theory: string,
    basis: Option<string>,      // after "/" on the route line
    calculation: string,
    format: string,
    title: string,
    charge: int,
    multiplicity: int)

  datatype Compiled = Compiled(file: InputFile, warnings: seq<string>)

  function Compile(o: Options): (r: Result<Compiled>)
    ensures r.Ok? <==>
      o.calculationType in CalculationTypeOption.values && o.outputFormat in OutputFormatOption.values
    ensures o.calculationType !in CalculationTypeOption.values ==>
      r == Err(UnhandledOption("Calculation Type", o.calculationType))
    ensures o.calculationType in CalculationTypeOption.values && o.outputFormat !in OutputFormatOption.values ==>
      r == Err(UnhandledOption("Output Format", o.outputFormat))
    ensures r.Ok? ==> (r.value.file.nprocShared.Some? <==> o.cores > 1)
    ensures r.Ok? && o.cores > 1 ==> r.value.file.nprocShared == Some(o.cores)
    ensures r.Ok? ==> r.value.file.memory == o.memory
    ensures r.Ok? ==> r.value.file.checkpoint == o.writeCheckpoint
    ensures r.Ok? && SemiEmpirical(o.theory) ==>
      r.value.file.basis.None? && r.value.warnings == [BasisIgnoredWarning]
    ensures r.Ok? && !SemiEmpirical(o.theory) ==>
      r.value.file.basis == Some(Without(ChosenBasis(o), ' ')) && r.value.warnings == []
    ensures r.Ok? ==> r.value.file.theory == o.theory
    ensures r.Ok? ==> r.value.file.calculation == CalculationKeyword(o.calculationType).value
    ensures r.Ok? ==> r.value.file.format == FormatKeyword(o.outputFormat).value
    ensures r.Ok? ==> r.value.file.title == o.title
    ensures r.Ok? ==> r.value.file.charge == o.charge && r.value.file.multiplicity == o.multiplicity
  {
    var semiEmpirical := SemiEmpirical(o.theory);
    var calculation :- CalculationKeyword(o.calculationType);
    var format :- FormatKeyword(o.outputFormat);
    Ok(Compiled(
      InputFile(
        if o.cores > 1 then Some(o.cores) else None,
        o.memory,
        o.writeCheckpoint,
        o.theory,
        if semiEmpirical then None else Some(Without(ChosenBasis(o), ' ')),
        calculation,
        format,
        o.title,
        o.charge,
        o.multiplicity),
      if semiEmpirical then [BasisIgnoredWarning] else []))
  }

  /** The Link 0 lines: shared processors, memory, checkpoint file. */
  function Link0(f: InputFile): string {
    (if f.nprocShared.Some? then "%NProcShared=" + IntToString(f.nprocShared.value) + "\n" else "")
    + "%mem=" + IntToString(f.memory) + "GB\n"
    + (if f.checkpoint then "%Chk=checkpoint.chk\n" else "")
  }

  function RouteLine(f: InputFile): string {
    "#p " + f.theory + (if f.basis.Some? then "/" + f.basis.value else "") + f.calculation + f.format
  }

  /** Blank line, title, blank line, then charge and multiplicity. */
  function TitleAndCharge(f: InputFile): string {
    "\n\n " + f.title + "\n\n" + IntToString(f.charge) + " " + IntToString(f.multiplicity) + "\n"
  }

  const CoordinateTag := "Sxyz"

  /** The end of the placeholder's line, then the extra blank line without
      which Gaussian stops without a word. */
  const Back := "\n\n"

  /** The file text, as `generateInputFile` writes it. */
  function Render(f: InputFile): string {
    Link0(f) + RouteLine(f) + TitleAndCharge(f) + Placeholder(CoordinateTag) + Back
  }

  /** The Link 0 lines and the route line open the file; the placeholder
      and the closing blank line end it. */
  lemma RenderFrame(f: InputFile)
    ensures StartsWith(Render(f), Link0(f) + RouteLine(f))
    ensures EndsWith(Render(f), Placeholder(CoordinateTag) + Back)
  {
    var head := Link0(f) + RouteLine(f);
    var tail := Placeholder(CoordinateTag) + Back;
    assert Render(f) == head + (TitleAndCharge(f) + tail);
    assert Render(f) == (head + TitleAndCharge(f)) + tail;
    StartsWithAppended(head, TitleAndCharge(f) + tail);
    EndsWithAppended(head + TitleAndCharge(f), tail);
  }

  datatype Generated = Generated(text: string, warnings: seq<string>)

  /** A file is produced exactly when the calculation type and the output
      format are handled; it carries the basis-ignored warning exactly for a
      semi-empirical method. */
  function GenerateInputFile(o: Options): (r: Result<Generated>)
    ensures r.Ok? <==>
      o.calculationType in CalculationTypeOption.values && o.outputFormat in OutputFormatOption.values
    ensures o.calculationType !in CalculationTypeOption.values ==>
      r == Err(UnhandledOption("Calculation Type", o.calculationType))
    ensures o.calculationType in CalculationTypeOption.values && o.outputFormat !in OutputFormatOption.values ==>
      r == Err(UnhandledOption("Output Format", o.outputFormat))
    ensures r.Ok? ==> r.value.warnings == (if SemiEmpirical(o.theory) then [BasisIgnoredWarning] else [])
  {
    var c :- Compile(o);
    Ok(Generated(Render(c.file), c.warnings))
  }

  // ---------------------------------------------------------------------
  // Properties of the compiler
  // ---------------------------------------------------------------------

  lemma CompilesWhenValid(o: Options)
    requires Valid(o)
    ensures Compile(o).Ok?
  {
  }

  /** A semi-empirical method is written alone on the route line: no "/" and
      no basis follow it, whatever basis was chosen, and the warning says so. */
  lemma SemiEmpiricalIgnoresBasis(o: Options, basis: string, alternate: bool, alternateName: string)
    requires SemiEmpirical(o.theory) && Compile(o).Ok?
    ensures RouteLine(Compile(o).value.file) ==
      "#p " + o.theory + Compile(o).value.file.calculation + Compile(o).value.file.format
    ensures Compile(o.(basis := basis, alternateBasis := alternate, alternateBasisName := alternateName))
      == Compile(o)
    ensures GenerateInputFile(o).value.warnings == [BasisIgnoredWarning]
  {
  }

  /** The basis written is free of spaces, and already space-free names are
      written unchanged. */
  lemma BasisWrittenWithoutSpaces(o: Options)
    requires !SemiEmpirical(o.theory) && Compile(o).Ok?
    ensures ' ' !in Compile(o).value.file.basis.value
    ensures ' ' !in ChosenBasis(o) ==> Compile(o).value.file.basis == Some(ChosenBasis(o))
  {
    if ' ' !in ChosenBasis(o) {
      WithoutAbsent(ChosenBasis(o), ' ');
    }
  }

  predicate DollarFree(o: Options) {
    '$' !in o.title && '$' !in o.theory && '$' !in o.basis && '$' !in o.alternateBasisName
  }

  lemma Link0DollarFree(f: InputFile)
    ensures '$' !in Link0(f)
  {
    IntToStringHasNoDollar(f.memory);
    if f.nprocShared.Some? {
      IntToStringHasNoDollar(f.nprocShared.value);
    }
  }

  lemma TitleAndChargeDollarFree(f: InputFile)
    requires '$' !in f.title
    ensures '$' !in TitleAndCharge(f)
  {
    IntToStringHasNoDollar(f.charge);
    IntToStringHasNoDollar(f.multiplicity);
  }

  predicate FileDollarFree(f: InputFile) {
    && '$' !in f.title && '$' !in f.theory && (f.basis.Some? ==> '$' !in f.basis.value)
    && '$' !in f.calculation && '$' !in f.format
  }

  lemma CompileKeepsDollarFree(o: Options)
    requires DollarFree(o) && Compile(o).Ok?
    ensures FileDollarFree(Compile(o).value.file)
  {
    if !SemiEmpirical(o.theory) {
      assert Compile(o).value.file.basis.value == Without(ChosenBasis(o), ' ');
    }
  }

  lemma RouteLineDollarFree(f: InputFile)
    requires FileDollarFree(f)
    ensures '$' !in RouteLine(f)
  {
    var slashBasis := if f.basis.Some? then "/" + f.basis.value else "";
    assert '$' !in slashBasis;
  }

  lemma FilePlaceholderOnce(f: InputFile)
    requires FileDollarFree(f)
    ensures Occurrences(Render(f), Placeholder(CoordinateTag)) == 1
  {
    Link0DollarFree(f);
    TitleAndChargeDollarFree(f);
    RouteLineDollarFree(f);
    PlaceholderOnce(Link0(f) + RouteLine(f) + TitleAndCharge(f), CoordinateTag, Back);
  }

  /** The file holds exactly one placeholder, provided the free-text options
      contain no '$'. */
  lemma OnePlaceholder(o: Options)
    requires DollarFree(o) && GenerateInputFile(o).Ok?
    ensures Occurrences(GenerateInputFile(o).value.text, Placeholder(CoordinateTag)) == 1
  {
    CompileKeepsDollarFree(o);
    FilePlaceholderOnce(Compile(o).value.file);
  }

  /** The file ends with the placeholder line and the blank line Gaussian needs. */
  lemma EndsWithBlankLine(o: Options)
    requires GenerateInputFile(o).Ok?
    ensures EndsWith(GenerateInputFile(o).value.text, Placeholder(CoordinateTag) + "\n\n")
  {
    var f := Compile(o).value.file;
    assert Render(f) == (Link0(f) + RouteLine(f) + TitleAndCharge(f)) + (Placeholder(CoordinateTag) + Back);
    EndsWithAppended(Link0(f) + RouteLine(f) + TitleAndCharge(f), Placeholder(CoordinateTag) + Back);
  }

  // ---------------------------------------------------------------------
  // Response
  // ---------------------------------------------------------------------

  const Extension := "gjf"

  /** The response carries the compiler's warnings, and a `warnings` entry
      only when there is at least one. */
  function GenerateInput(o: Options, rawRequest: string, debug: bool): (r: Result<Envelope.Response>)
    ensures r.Ok? <==> GenerateInputFile(o).Ok?
    ensures r.Ok? ==> r.value.mainFile == o.filenameBase + ".gjf"
    ensures r.Ok? ==> |r.value.files| == (if debug then 2 else 1)
    ensures r.Ok? ==> r.value.files[0] == Envelope.File(r.value.mainFile, GenerateInputFile(o).value.text)
    ensures r.Ok? && debug ==> r.value.files[1] == Envelope.File(Envelope.DebugFileName, rawRequest)
    ensures r.Ok? ==> Envelope.MainFileUnique(r.value)
    ensures r.Ok? ==> (r.value.warnings.Some? <==> SemiEmpirical(o.theory))
    ensures r.Ok? && r.value.warnings.Some? ==> r.value.warnings.value == [BasisIgnoredWarning]
  {
    match GenerateInputFile(o)
    case Err(e) => Err(e)
    case Ok(g) => Ok(Envelope.Assemble(o.filenameBase, Extension, g.text, rawRequest, debug, g.warnings))
  }

  lemma TwentyEight()
    ensures IntToString(28) == "28"
  {
    assert NatToString(2) == "2";
    assert DigitChar(8) == '8';
  }

  /** The defaults, spelled out. */
  lemma DefaultsSpelledOut()
    ensures Defaults() == Options("", "Equilibrium Geometry", "B3LYP", "6-31G(d)", false, "", "job",
                                  8, 28, 1, 0, "Standard", true)
    ensures Defaults().(calculationType := "Single Point") == DefaultSinglePointOptions
  {
  }

  const DefaultSinglePointFile :=
    InputFile(Some(8), 28, true, "B3LYP", Some("6-31G(d)"), " SP", "", "", 0, 1)

  /** The text of the default single point, in the order the lines are written. */
  const DefaultSinglePointText :=
    "%NProcShared=8\n" + "%mem=28GB\n" + "%Chk=checkpoint.chk\n" + "#p B3LYP/6-31G(d) SP"
    + "\n\n \n\n0 1\n" + "$$coords:Sxyz$$" + "\n\n"

  lemma RenderDefaultSinglePoint()
    ensures Render(DefaultSinglePointFile) == DefaultSinglePointText
  {
    var f := DefaultSinglePointFile;
    TwentyEight();
    assert Link0(f) == "%NProcShared=8\n" + "%mem=28GB\n" + "%Chk=checkpoint.chk\n";
    assert TitleAndCharge(f) == "\n\n \n\n0 1\n";
  }

  const DefaultSinglePointOptions :=
    Options("", "Single Point", "B3LYP", "6-31G(d)", false, "", "job", 8, 28, 1, 0, "Standard", true)

  lemma CompileDefaultSinglePoint()
    ensures GenerateInputFile(DefaultSinglePointOptions) == Ok(Generated(DefaultSinglePointText, []))
  {
    WithoutAbsent("6-31G(d)", ' ');
    assert Compile(DefaultSinglePointOptions) == Ok(Compiled(DefaultSinglePointFile, []));
    RenderDefaultSinglePoint();
  }

  /** The default job switched to a single point (B3LYP/6-31G(d) on eight
      cores with 28 GB and a checkpoint file; DefaultsSpelledOut shows these
      are the defaults) produces this exact response, with no warnings. */
  lemma DefaultSinglePoint()
    ensures GenerateInput(DefaultSinglePointOptions, "{}", false)
      == Ok(Envelope.Response([Envelope.File("job.gjf", DefaultSinglePointText)], "job.gjf", None))
  {
    CompileDefaultSinglePoint();
    assert "job" + "." + Extension == "job.gjf";
  }
}
