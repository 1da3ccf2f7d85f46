/** The Psi4 input generator (psi4.py): option schema, compiler and
    response assembly. The Title option is read but never written.
 */
module Psi4 {
  import opened Results
  import opened Schema
  import opened Decimal
  import opened Text
  import Envelope

  // ---------------------------------------------------------------------
  // Option schema
  // ---------------------------------------------------------------------

  const TitleOption := StringOption("Title", "")
  const CoresOption := IntegerOption("Processor Cores", 1, Some(1), None)
  const MemoryOption := IntegerOption("Memory", 16, Some(1), None)
  const CalculationTypeOption := StringListOption("Calculation Type",
    ["Single Point", "Geometry Optimization", "Frequencies"], Index(1))
  const TheoryOption := StringListOption("Theory",
    ["HF", "MP2", "CCSD", "CCSD(T)", "B3LYP-D", "B97-D", "B97-D3BJ", "REVPBE", "REVPBE-D3BJ",
     "wB97X-D", "M06-2X", "MO6-L", "SAPT0", "SAPT2", "SAPT2-ct", "SAPT2+", "SAPT2+-ct",
     "SAPT2+(3)", "SAPT2+(3)-ct", "SAPT2+3", "SAPT2+3-ct"], Index(7))
  const BasisOption := StringListOption("Basis",
    ["6-31G(d)", "cc-pVDZ", "cc-pVTZ", "cc-pVQZ", "cc-pV5Z", "cc-pV6Z", "aug-cc-pVDZ",
     "aug-cc-pVTZ", "aug-cc-pVQZ", "aug-cc-pV5Z", "aug-cc-pV6Z", "def2-SVP", "def2-SVPD",
     "def2-TZVP", "def2-QZVP", "pc-2", "aug-pc-2"], Index(11))
  const AlternateBasisOption := BooleanOption("Alternate Basis Set", false)
  const AlternateBasisNameOption := StringOption("Alternate Basis Set Name", "")
  const FilenameBaseOption := StringOption("Filename Base", "job")
  const ChargeOption := IntegerOption("Charge", 0, Some(-9), Some(9))
  const MultiplicityOption := IntegerOption("Multiplicity", 1, Some(1), Some(6))

  function UserOptions(): OptionSchema {
    OptionSchema(
      [ Tab(None,
            [TitleOption, CoresOption, MemoryOption, CalculationTypeOption, TheoryOption,
             BasisOption, AlternateBasisOption, AlternateBasisNameOption, FilenameBaseOption,
             ChargeOption, MultiplicityOption]) ],
      None)
  }

  lemma UserOptionsWellFormed()
    ensures WellFormed(UserOptions())
  {
  }

  // ---------------------------------------------------------------------
  // Resolved options
  // ---------------------------------------------------------------------

  datatype Options = Options(
    title: string,
    cores: int,
    memory: int,
    calculationType: string,
    theory: string,
    basis: string,
    alternateBasis: bool,
    alternateBasisName: string,
    filenameBase: string,
    charge: int,
    multiplicity: int)

  predicate Valid(o: Options) {
    && Admits(TitleOption, StringValue(o.title))
    && Admits(CoresOption, IntegerValue(o.cores))
    && Admits(MemoryOption, IntegerValue(o.memory))
    && Admits(CalculationTypeOption, StringValue(o.calculationType))
    && Admits(TheoryOption, StringValue(o.theory))
    && Admits(BasisOption, StringValue(o.basis))
    && Admits(AlternateBasisOption, BooleanValue(o.alternateBasis))
    && Admits(AlternateBasisNameOption, StringValue(o.alternateBasisName))
    && Admits(FilenameBaseOption, StringValue(o.filenameBase))
    && Admits(ChargeOption, IntegerValue(o.charge))
    && Admits(MultiplicityOption, IntegerValue(o.multiplicity))
  }

  function Defaults(): (o: Options)
    ensures Valid(o)
  {
    Options(
      TitleOption.defaultText, CoresOption.defaultNumber, MemoryOption.defaultNumber,
      DefaultString(CalculationTypeOption), DefaultString(TheoryOption), DefaultString(BasisOption),
      AlternateBasisOption.defaultFlag, AlternateBasisNameOption.defaultText,
      FilenameBaseOption.defaultText, ChargeOption.defaultNumber, MultiplicityOption.defaultNumber)
  }

  // ---------------------------------------------------------------------
  // Compiler
  // ---------------------------------------------------------------------

  /** The Psi4 driver function for a calculation type. */
  function Driver(calculationType: string): (r: Result<string>)
    ensures r.Ok? <==> calculationType in CalculationTypeOption.values
    ensures r.Err? ==> r.error == UnhandledOption("Calculation Type", calculationType)
    ensures r == Ok("optimize") <==> calculationType == "Geometry Optimization"
  {
    if calculationType == "Single Point" then Ok("energy")
    else if calculationType == "Geometry Optimization" then Ok("optimize")
    else if calculationType == "Frequencies" then Ok("frequencies")
    else Err(UnhandledOption("Calculation Type", calculationType))
  }

  /** The driver functions, in the order the schema lists the calculation types. */
  const Drivers := ["energy", "optimize", "frequencies"]

  /** Each calculation type the schema offers maps to the driver in the same
      position. */
  lemma DriverTable()
    ensures |Drivers| == |CalculationTypeOption.values|
    ensures forall i :: 0 <= i < |Drivers| ==>
      Driver(CalculationTypeOption.values[i]) == Ok(Drivers[i])
  {
  }

  /** What the generated Psi4 input says. */
  datatype InputFile = InputFile(
    threads: int,
    memory: int,              // in GB
    basis: string,
    charge: int,
    multiplicity: int,
    trajectory: bool,         // the optking block that writes the trajectory
    autoFragments: bool,      // the auto_fragments('') call SAPT needs
    driver: string,
    theory: string)

  function Compile(o: Options): (r: Result<InputFile>)
    ensures r.Ok? <==> o.calculationType in CalculationTypeOption.values
    ensures r.Ok? ==> r.value.threads == o.cores && r.value.memory == o.memory
    ensures r.Ok? ==> r.value.basis == (if o.alternateBasis then o.alternateBasisName else o.basis)
    ensures r.Ok? ==> (r.value.trajectory <==> o.calculationType == "Geometry Optimization")
    ensures r.Ok? ==> (r.value.autoFragments <==> Contains(o.theory, "SAPT"))
    ensures r.Ok? ==> r.value.theory == o.theory
    ensures r.Ok? ==> r.value.driver == Driver(o.calculationType).value
    ensures r.Ok? ==> r.value.charge == o.charge && r.value.multiplicity == o.multiplicity
  {
    var driver :- Driver(o.calculationType);
    Ok(InputFile(
      o.cores,
      o.memory,
      if o.alternateBasis then o.alternateBasisName else o.basis,
      o.charge,
      o.multiplicity,
      driver == "optimize",
      Contains(o.theory, "SAPT"),
      driver,
      o.theory))
  }

  const CoordinateTag := "___Sxyz"

  /** Threads, memory and basis. */
  function Opening(f: InputFile): string {
    "set_num_threads(" + IntToString(f.threads) + ")\n"
    + "memory " + IntToString(f.memory) + "GB\n"
    + "set basis " + f.basis + "\n"
  }

  /** The start of the molecule block: charge and multiplicity. */
  function MoleculeOpen(f: InputFile): string {
    "molecule {\n" + IntToString(f.charge) + " " + IntToString(f.multiplicity) + "\n"
  }

  /** The opening, then the molecule block up to the placeholder. */
  function Front(f: InputFile): string {
    Opening(f) + MoleculeOpen(f)
  }

  const OptkingBlock := "set optking {\n" + "   print_trajectory_xyz_file\tTrue\n" + "}\n\n"
  const AutoFragmentsLine := "auto_fragments('')\n"

  /** The end of the molecule block and the optional blocks. */
  function Tail(f: InputFile): string {
    "\n}\n\n"
    + (if f.trajectory then OptkingBlock else "")
    + (if f.autoFragments then AutoFragmentsLine else "")
  }

  /** Everything after the placeholder. */
  function Back(f: InputFile): string {
    Tail(f) + DriverCall(f)
  }

  function DriverCall(f: InputFile): string {
    f.driver + "(\"" + f.theory + "\")\n"
  }

  /** The input text, as `generateInputFile` writes it. */
  function Render(f: InputFile): string {
    Front(f) + Placeholder(CoordinateTag) + Back(f)
  }

  /** The resource and basis lines open the input; the driver call ends it. */
  lemma RenderFrame(f: InputFile)
    ensures StartsWith(Render(f), Opening(f))
    ensures EndsWith(Render(f), DriverCall(f))
  {
    assert Render(f) == Opening(f) + (MoleculeOpen(f) + Placeholder(CoordinateTag) + Back(f));
    assert Render(f) == (Front(f) + Placeholder(CoordinateTag) + Tail(f)) + DriverCall(f);
    StartsWithAppended(Opening(f), MoleculeOpen(f) + Placeholder(CoordinateTag) + Back(f));
    EndsWithAppended(Front(f) + Placeholder(CoordinateTag) + Tail(f), DriverCall(f));
  }

  /** An input is produced exactly when the calculation type is handled. */
  function GenerateInputFile(o: Options): (r: Result<string>)
    ensures r.Ok? <==> o.calculationType in CalculationTypeOption.values
    ensures r.Err? ==> r.error == UnhandledOption("Calculation Type", o.calculationType)
  {
    var f :- Compile(o);
    Ok(Render(f))
  }

  // ---------------------------------------------------------------------
  // Properties of the compiler
  // ---------------------------------------------------------------------

  lemma CompilesWhenValid(o: Options)
    requires Valid(o)
    ensures Compile(o).Ok?
  {
  }

  /** The title never reaches the input. */
  lemma TitleIgnored(o: Options, title: string)
    ensures GenerateInputFile(o.(title := title)) == GenerateInputFile(o)
  {
  }

  /** A method whose name mentions SAPT anywhere gets auto_fragments, and one
      whose name does not, does not. */
  lemma SaptFragments(o: Options)
    requires Compile(o).Ok?
    ensures Compile(o).value.autoFragments <==> exists i :: OccursAt(o.theory, "SAPT", i)
    ensures |o.theory| >= 4 && o.theory[..4] == "SAPT" ==> Compile(o).value.autoFragments
  {
    ContainsIffOccursAt(o.theory, "SAPT");
    if |o.theory| >= 4 && o.theory[..4] == "SAPT" {
      assert OccursAt(o.theory, "SAPT", 0);
    }
  }

  predicate DollarFree(o: Options) {
    '$' !in o.basis && '$' !in o.alternateBasisName && '$' !in o.theory
  }

  predicate FileDollarFree(f: InputFile) {
    '$' !in f.basis && '$' !in f.driver && '$' !in f.theory
  }

  lemma CompileKeepsDollarFree(o: Options)
    requires DollarFree(o) && Compile(o).Ok?
    ensures FileDollarFree(Compile(o).value)
  {
  }

  lemma FrontDollarFree(f: InputFile)
    requires FileDollarFree(f)
    ensures '$' !in Front(f)
  {
    assert '$' !in Opening(f);
    assert '$' !in MoleculeOpen(f);
    IntToStringHasNoDollar(f.threads);
    IntToStringHasNoDollar(f.memory);
    IntToStringHasNoDollar(f.charge);
    IntToStringHasNoDollar(f.multiplicity);
  }

  lemma BackDollarFree(f: InputFile)
    requires FileDollarFree(f)
    ensures '$' !in Back(f)
  {
    assert '$' !in OptkingBlock;
    assert '$' !in Tail(f);
  }

  lemma FilePlaceholderOnce(f: InputFile)
    requires FileDollarFree(f)
    ensures Occurrences(Render(f), Placeholder(CoordinateTag)) == 1
  {
    FrontDollarFree(f);
    BackDollarFree(f);
    PlaceholderOnce(Front(f), CoordinateTag, Back(f));
  }

  /** The input holds exactly one placeholder, provided the free-text
      options contain no '$'. */
  lemma OnePlaceholder(o: Options)
    requires DollarFree(o) && GenerateInputFile(o).Ok?
    ensures Occurrences(GenerateInputFile(o).value, Placeholder(CoordinateTag)) == 1
  {
    CompileKeepsDollarFree(o);
    FilePlaceholderOnce(Compile(o).value);
  }

  /** The input opens with the thread count, the memory and the basis, the
      alternate name when Alternate Basis Set is on. */
  lemma OpensWithResources(o: Options)
    requires GenerateInputFile(o).Ok?
    ensures var opening := "set_num_threads(" + IntToString(o.cores) + ")\n"
      + "memory " + IntToString(o.memory) + "GB\n"
      + "set basis " + (if o.alternateBasis then o.alternateBasisName else o.basis) + "\n";
      var text := GenerateInputFile(o).value;
      |opening| <= |text| && text[..|opening|] == opening
  {
    RenderFrame(Compile(o).value);
  }

  /** The input always ends by calling the driver on the chosen method. */
  lemma EndsWithDriverCall(o: Options)
    requires GenerateInputFile(o).Ok?
    ensures EndsWith(GenerateInputFile(o).value, DriverCall(Compile(o).value))
    ensures DriverCall(Compile(o).value) == Driver(o.calculationType).value + "(\"" + o.theory + "\")\n"
  {
    var f := Compile(o).value;
    assert Render(f) == (Front(f) + Placeholder(CoordinateTag) + Tail(f)) + DriverCall(f);
    EndsWithAppended(Front(f) + Placeholder(CoordinateTag) + Tail(f), DriverCall(f));
  }

  // ---------------------------------------------------------------------
  // Response
  // ---------------------------------------------------------------------

  const Extension := "in"

  /** Psi4 never reports warnings. */
  function GenerateInput(o: Options, rawRequest: string, debug: bool): (r: Result<Envelope.Response>)
    ensures r.Ok? <==> GenerateInputFile(o).Ok?
    ensures r.Ok? ==> r.value.mainFile == o.filenameBase + ".in"
    ensures r.Ok? ==> |r.value.files| == (if debug then 2 else 1)
    ensures r.Ok? ==> r.value.files[0] == Envelope.File(r.value.mainFile, GenerateInputFile(o).value)
    ensures r.Ok? && debug ==> r.value.files[1] == Envelope.File(Envelope.DebugFileName, rawRequest)
    ensures r.Ok? ==> Envelope.MainFileUnique(r.value)
    ensures r.Ok? ==> r.value.warnings.None?
  {
    match GenerateInputFile(o)
    case Err(e) => Err(e)
    case Ok(text) => Ok(Envelope.Assemble(o.filenameBase, Extension, text, rawRequest, debug, []))
  }
}
