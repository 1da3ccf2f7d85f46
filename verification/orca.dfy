/** The ORCA input generator (orca.py): option schema, compiler and
    response assembly. The compiler first builds an `InputFile` record that
    holds what each part of the file says, with an `Option` for every block
    that is written only under a condition; `Render` lays the record out as
    the exact text the script writes.
 */
module Orca {
  import opened Results
  import opened Schema
  import opened Decimal
  import opened Text
  import Envelope

  // ---------------------------------------------------------------------
  // Option schema
  // ---------------------------------------------------------------------

  const TitleOption := StringOption("Title", "")
  const CoresOption := IntegerOption("Processor Cores", 1, Some(1), None)
  const MemoryOption := IntegerOption("Memory", 16, Some(1), None)
  const CalculationTypeOption := StringListOption("Calculation Type",
    ["Single Point", "Geometry Optimization", "Frequencies", "Transition State", "Dynamics"], Index(1))
  const PrintOrbitalsOption := BooleanOption("Print Molecular Orbitals", false)
  const TheoryOption := StringListOption("Theory",
    ["HF", "MP2", "CCSD", "CCSD(T)", "BLYP", "PBE", "PBE0", "revPBE", "B3LYP", "B97-3C",
     "M06L", "M062X", "wB97X-D3"], Index(7))
  const RiOption := StringListOption("RI Approximation",
    ["None", "NORI", "RIJK", "RIJONX", "RIJCOSX"], Index(0))
  const DispersionOption := StringListOption("Dispersion Correction",
    ["None", "D3ZERO", "D3BJ", "D4"], Index(0))
  const BasisOption := StringListOption("Basis",
    ["6-31G(d)", "cc-pVDZ", "cc-pVTZ", "cc-pVQZ", "aug-cc-pVDZ", "aug-cc-pVTZ", "aug-cc-pVQZ",
     "def2-SVP", "def2-TZVP", "def2-QZVP", "def2-TZVPP", "def2-QZVPP", "def2-TZVPPD",
     "def2-QZVPPD", "ma-def2-SVP", "ma-def2-TZVP", "ma-def2-QZVP"], Index(8))
  const SolvationOption := StringListOption("Solvation",
    ["None (gas)", "-", "Water", "Acetonitrile", "Acetone", "Ethanol", "Methanol", "CCl4",
     "CH2Cl2", "Chloroform", "DMSO", "DMF", "Hexane", "Toluene", "Pyridine", "THF", "Toluene"],
    Index(0))
  const SolvationTypeOption := StringListOption("Solvation Type", ["CPCM", "SMD"], Index(0))
  const FilenameBaseOption := StringOption("Filename Base", "job")
  const ChargeOption := IntegerOption("Charge", 0, Some(-9), Some(9))
  const MultiplicityOption := IntegerOption("Multiplicity", 1, Some(1), Some(6))
  const AutoAuxOption := BooleanOption("AutoAux", false)
  const TimeStepOption := StringOption("AIMD TimeStep", "0.5_fs")
  const InitvelOption := StringOption("AIMD Initvel", "350")
  const ThermostatTempOption := IntegerOption("AIMD Thermostat Temp", 300, Some(0), Some(1000))
  const ThermostatTimeOption := StringOption("AIMD Thermostat Time", "10_fs")
  const RunTimeOption := IntegerOption("AIMD RunTime", 200, None, None)

  /** `getOptions`: the "Basic" tab, then the "Dynamics" tab. */
  function UserOptions(): OptionSchema {
    OptionSchema(
      [ Tab(Some("Basic"),
            [TitleOption, CoresOption, MemoryOption, CalculationTypeOption, PrintOrbitalsOption,
             TheoryOption, RiOption, DispersionOption, BasisOption, SolvationOption,
             SolvationTypeOption, FilenameBaseOption, ChargeOption, MultiplicityOption,
             AutoAuxOption]),
        Tab(Some("Dynamics"),
            [TimeStepOption, InitvelOption, ThermostatTempOption, ThermostatTimeOption,
             RunTimeOption]) ],
      None)
  }

  lemma UserOptionsWellFormed()
    ensures WellFormed(UserOptions())
  {
  }

  // ---------------------------------------------------------------------
  // Resolved options
  // ---------------------------------------------------------------------

  datatype Options = Options(
    title: string,
    cores: int,
    memory: int,
    calculationType: string,
    printOrbitals: bool,
    theory: string,
    ri: string,
    dispersion: string,
    basis: string,
    solvation: string,
    solvationType: string,
    filenameBase: string,
    charge: int,
    multiplicity: int,
    autoAux: bool,
    timeStep: string,
    initvel: string,
    thermostatTemp: int,
    thermostatTime: string,
    runTime: int)

  /** The options of the Basic tab admit their values. */
  predicate BasicValid(o: Options) {
    && Admits(TitleOption, StringValue(o.title))
    && Admits(CoresOption, IntegerValue(o.cores))
    && Admits(MemoryOption, IntegerValue(o.memory))
    && Admits(CalculationTypeOption, StringValue(o.calculationType))
    && Admits(PrintOrbitalsOption, BooleanValue(o.printOrbitals))
    && Admits(TheoryOption, StringValue(o.theory))
    && Admits(RiOption, StringValue(o.ri))
    && Admits(DispersionOption, StringValue(o.dispersion))
    && Admits(BasisOption, StringValue(o.basis))
    && Admits(SolvationOption, StringValue(o.solvation))
    && Admits(SolvationTypeOption, StringValue(o.solvationType))
    && Admits(FilenameBaseOption, StringValue(o.filenameBase))
    && Admits(ChargeOption, IntegerValue(o.charge))
    && Admits(MultiplicityOption, IntegerValue(o.multiplicity))
    && Admits(AutoAuxOption, BooleanValue(o.autoAux))
  }

  /** The options of the Dynamics tab admit their values. */
  predicate DynamicsValid(o: Options) {
    && Admits(TimeStepOption, StringValue(o.timeStep))
    && Admits(InitvelOption, StringValue(o.initvel))
    && Admits(ThermostatTempOption, IntegerValue(o.thermostatTemp))
    && Admits(ThermostatTimeOption, StringValue(o.thermostatTime))
    && Admits(RunTimeOption, IntegerValue(o.runTime))
  }

  /** Every option meets its descriptor. */
  predicate Valid(o: Options) {
    BasicValid(o) && DynamicsValid(o)
  }

  lemma MethodDefaultsValid()
    ensures DefaultValid(CalculationTypeOption) && DefaultValid(TheoryOption)
    ensures DefaultValid(RiOption) && DefaultValid(DispersionOption)
  {
  }

  lemma BasisAndSolventDefaultsValid()
    ensures DefaultValid(BasisOption) && DefaultValid(SolvationOption)
    ensures DefaultValid(SolvationTypeOption)
  {
  }

  /** The option set the host sends when the user changes nothing. Its
      validity is proved in `DefaultsValid` rather than stated here, so
      that proofs which mention `Defaults()` do not carry the whole
      descriptor check with them. */
  function Defaults(): Options {
    MethodDefaultsValid();
    BasisAndSolventDefaultsValid();
    Options(
      TitleOption.defaultText, CoresOption.defaultNumber, MemoryOption.defaultNumber,
      DefaultString(CalculationTypeOption), PrintOrbitalsOption.defaultFlag,
      DefaultString(TheoryOption), DefaultString(RiOption), DefaultString(DispersionOption),
      DefaultString(BasisOption), DefaultString(SolvationOption),
      DefaultString(SolvationTypeOption), FilenameBaseOption.defaultText,
      ChargeOption.defaultNumber, MultiplicityOption.defaultNumber, AutoAuxOption.defaultFlag,
      TimeStepOption.defaultText, InitvelOption.defaultText, ThermostatTempOption.defaultNumber,
      ThermostatTimeOption.defaultText, RunTimeOption.defaultNumber)
  }

  lemma BasicDefaultsValid()
    ensures BasicValid(Defaults())
  {
    MethodDefaultsValid();
    BasisAndSolventDefaultsValid();
  }

  /** The defaults pass every schema constraint. */
  lemma DefaultsValid()
    ensures Valid(Defaults())
  {
    BasicDefaultsValid();
  }

  // ---------------------------------------------------------------------
  // Lookup tables
  // ---------------------------------------------------------------------

  /** Auxiliary basis for the RIJONX and RIJCOSX approximations. */
  const RijBasis: map<string, string> := map[
    "6-31G(d)" := "AutoAux", "cc-pVDZ" := "Def2/J", "cc-pVTZ" := "Def2/J",
    "cc-pVQZ" := "Def2/J", "aug-cc-pVDZ" := "AutoAux", "aug-cc-pVTZ" := "AutoAux",
    "aug-cc-pVQZ" := "AutoAux", "def2-SVP" := "Def2/J", "def2-TZVP" := "Def2/J",
    "def2-QZVP" := "Def2/J", "def2-TZVPP" := "Def2/J", "def2-QZVPP" := "Def2/J",
    "def2-TZVPPD" := "AutoAux", "def2-QZVPPD" := "AutoAux", "ma-def2-SVP" := "AutoAux",
    "ma-def2-TZVP" := "AutoAux", "ma-def2-QZVP" := "AutoAux"]

  /** Auxiliary basis for the RIJK approximation. */
  const RijkBasis: map<string, string> := map[
    "6-31G(d)" := "AutoAux", "cc-pVDZ" := "cc-pVDZ/JK", "cc-pVTZ" := "cc-pVTZ/JK",
    "cc-pVQZ" := "cc-pVQZ/JK", "aug-cc-pVDZ" := "aug-cc-pVDZ/JK",
    "aug-cc-pVTZ" := "aug-cc-pVTZ/JK", "aug-cc-pVQZ" := "aug-cc-pVQZ/JK",
    "def2-SVP" := "Def2/JK", "def2-TZVP" := "Def2/JK", "def2-QZVP" := "Def2/JK",
    "def2-TZVPP" := "Def2/JK", "def2-QZVPP" := "Def2/JK", "def2-TZVPPD" := "aug-cc-pVTZ/JK",
    "def2-QZVPPD" := "aug-cc-pVQZ/JK", "ma-def2-SVP" := "aug-cc-pVDZ/JK",
    "ma-def2-TZVP" := "aug-cc-pVTZ/JK", "ma-def2-QZVP" := "aug-cc-pVQZ/JK"]

  /** Every basis the schema offers has an entry in both auxiliary tables, so
      the lookup cannot fail on a schema-valid basis. */
  lemma BasisTablesCoverSchema()
    ensures forall b :: b in BasisOption.values ==> b in RijBasis && b in RijkBasis
  {
  }

  // ---------------------------------------------------------------------
  // Compiler
  // ---------------------------------------------------------------------

  /** The magnitude of an integer. */
  function Magnitude(x: int): nat {
    if x < 0 then -x else x
  }

  /** Floor division of naturals brackets the dividend. */
  lemma QuotientBrackets(m: nat, n: nat)
    requires 0 < n
    ensures (m / n) * n <= m < (m / n) * n + n
  {
  }

  /** Python's `int(a / b)`: the quotient truncated toward zero, so its
      magnitude is the floor of |a| / |b| and its sign is the operands'. */
  function TruncatedQuotient(a: int, b: int): (q: int)
    requires b != 0
    ensures 0 <= a && 0 < b ==> q * b <= a < q * b + b
    ensures (a < 0) == (b < 0) ==> 0 <= q
    ensures (a < 0) != (b < 0) ==> q <= 0
    ensures Magnitude(q) * Magnitude(b) <= Magnitude(a) < Magnitude(q) * Magnitude(b) + Magnitude(b)
  {
    var d := Magnitude(a) / Magnitude(b);
    QuotientBrackets(Magnitude(a), Magnitude(b));
    if (a < 0) == (b < 0) then
      assert Magnitude(d) == d;
      d
    else
      assert Magnitude(-d) == d;
      -d
  }

  /** The ORCA keyword for a calculation type. */
  function CalculationKeyword(calculationType: string): (r: Result<string>)
    ensures r.Ok? <==> calculationType in CalculationTypeOption.values
    ensures r.Err? ==> r.error == UnhandledOption("Calculation Type", calculationType)
    ensures r == Ok("MD") <==> calculationType == "Dynamics"
  {
    if calculationType == "Single Point" then Ok("SP")
    else if calculationType == "Geometry Optimization" then Ok("Opt")
    else if calculationType == "Frequencies" then Ok("Opt Freq")
    else if calculationType == "Dynamics" then Ok("MD")
    else if calculationType == "Transition State" then Ok("OptTS")
    else Err(UnhandledOption("Calculation Type", calculationType))
  }

  /** The ORCA keywords, in the order the schema lists the calculation types. */
  const CalculationKeywords := ["SP", "Opt", "Opt Freq", "OptTS", "MD"]

  /** Each calculation type the schema offers maps to the keyword in the
      same position, and to nothing else. */
  lemma CalculationKeywordTable()
    ensures |CalculationKeywords| == |CalculationTypeOption.values|
    ensures forall i :: 0 <= i < |CalculationKeywords| ==>
      CalculationKeyword(CalculationTypeOption.values[i]) == Ok(CalculationKeywords[i])
  {
  }

  /** The RI approximation is switched off ("None" or "NORI"). */
  predicate RiOff(ri: string) {
    ri == "None" || ri == "NORI"
  }

  /** The table the RI approximation draws its auxiliary basis from. */
  function AuxTable(ri: string): map<string, string> {
    if ri == "RIJONX" || ri == "RIJCOSX" then RijBasis else RijkBasis
  }

  /** The auxiliary basis appended to the basis token, if any. With the RI
      approximation off, AutoAux is forced off and nothing is appended;
      otherwise the basis is looked up (and must be present) even when
      AutoAux then replaces what was found. */
  function AuxiliaryBasis(ri: string, basis: string, autoAux: bool): (r: Result<Option<string>>)
    ensures RiOff(ri) ==> r == Ok(None)
    ensures !RiOff(ri) ==> (r.Ok? <==> basis in AuxTable(ri))
    ensures !RiOff(ri) && r.Ok? ==> r.value.Some?
    ensures !RiOff(ri) && r.Ok? && autoAux ==> r.value.value == "AutoAux"
    ensures !RiOff(ri) && r.Ok? && !autoAux ==> r.value.value == AuxTable(ri)[basis]
    ensures r.Err? ==> r.error == KeyError(basis)
  {
    if RiOff(ri) then Ok(None)
    else
      var table := AuxTable(ri);
      if basis !in table then Err(KeyError(basis))
      else Ok(Some(if autoAux then "AutoAux" else table[basis]))
  }

  function DispersionSuffix(dispersion: string): string {
    if dispersion == "None" then "" else " " + dispersion
  }

  function RiSuffix(ri: string): string {
    if RiOff(ri) then "" else " " + ri
  }

  /** A solvent is requested: the Solvation value does not contain "None"
      (a substring test, so "None (gas)" is the gas phase and "-" is not). */
  predicate SolventActive(solvation: string) {
    !Contains(solvation, "None")
  }

  function SolvationKeyword(solvation: string, solvationType: string): string {
    if SolventActive(solvation) && solvationType == "CPCM" then "CPCM(" + solvation + ")"
    else if SolventActive(solvation) && solvationType == "SMD" then "CPCM"
    else ""
  }

  datatype MdSettings = MdSettings(
    timestep: string, initvel: string, thermostatTemp: int, timecon: string, runTime: int)

  /** What the generated ORCA file says, part by part. */
  datatype InputFile = InputFile(
    title: string,
    calculation: string,      // keyword line: calculation keyword
    theory: string,           // keyword line: theory with dispersion and RI suffixes
    basis: string,            // keyword line: basis, then auxiliary basis if any
    solvation: string,        // keyword line: solvation keyword, possibly empty
    maxcore: int,             // %maxcore, megabytes per core
    nprocs: int,              // %pal nprocs
    smdSolvent: Option<string>,   // %cpcm block
    md: Option<MdSettings>,       // %md block
    printOrbitals: bool,          // %output block
    charge: int,
    multiplicity: int)

  function Compile(o: Options): (r: Result<InputFile>)
    ensures r.Ok? <==>
      && o.cores != 0
      && o.calculationType in CalculationTypeOption.values
      && (RiOff(o.ri) || o.basis in AuxTable(o.ri))
    ensures o.cores == 0 ==> r == Err(ZeroDivisionError)
    ensures o.cores != 0 && o.calculationType !in CalculationTypeOption.values ==>
      r == Err(UnhandledOption("Calculation Type", o.calculationType))
    ensures (o.cores != 0 && o.calculationType in CalculationTypeOption.values
      && !RiOff(o.ri) && o.basis !in AuxTable(o.ri)) ==> r == Err(KeyError(o.basis))
    ensures r.Ok? ==> r.value.nprocs == o.cores
    ensures r.Ok? && 0 <= o.memory && 0 < o.cores ==>
      r.value.maxcore * o.cores <= o.memory * 1024 < r.value.maxcore * o.cores + o.cores
    ensures r.Ok? ==> (r.value.md.Some? <==> o.calculationType == "Dynamics")
    ensures r.Ok? && r.value.md.Some? ==>
      r.value.md.value == MdSettings(o.timeStep, o.initvel, o.thermostatTemp, o.thermostatTime, o.runTime)
    ensures r.Ok? ==> r.value.printOrbitals == o.printOrbitals
    ensures r.Ok? ==> r.value.calculation == CalculationKeyword(o.calculationType).value
    ensures r.Ok? ==> r.value.title == o.title
    ensures r.Ok? ==> r.value.charge == o.charge && r.value.multiplicity == o.multiplicity
  {
    if o.cores == 0 then Err(ZeroDivisionError)
    else
      var maxcore := TruncatedQuotient(o.memory * 1024, o.cores);
      var calculation :- CalculationKeyword(o.calculationType);
      var aux :- AuxiliaryBasis(o.ri, o.basis, o.autoAux);
      var basis := if aux.Some? then o.basis + " " + aux.value else o.basis;
      Ok(InputFile(
        o.title,
        calculation,
        o.theory + DispersionSuffix(o.dispersion) + RiSuffix(o.ri),
        basis,
        SolvationKeyword(o.solvation, o.solvationType),
        maxcore,
        o.cores,
        if SolventActive(o.solvation) && o.solvationType == "SMD" then Some(o.solvation) else None,
        if calculation == "MD"
        then Some(MdSettings(o.timeStep, o.initvel, o.thermostatTemp, o.thermostatTime, o.runTime))
        else None,
        o.printOrbitals,
        o.charge,
        o.multiplicity))
  }

  const CoordinateTag := "___Sxyz"

  lemma PlaceholderSpelling()
    ensures Placeholder(CoordinateTag) == "$$coords:___Sxyz$$"
  {
  }

  function SmdBlock(smdSolvent: Option<string>): string {
    match smdSolvent
    case None => ""
    case Some(s) => "%cpcm\n" + "   smd true\n" + "   SMDSolvent \"" + s + "\"\n" + "end\n\n"
  }

  function MdBlock(md: Option<MdSettings>): string {
    match md
    case None => ""
    case Some(m) =>
      "%md\n"
      + "   timestep " + m.timestep + "\n"
      + "   initvel " + m.initvel + "_k\n"
      + "   thermostat berendsen " + IntToString(m.thermostatTemp) + "_k timecon " + m.timecon + "\n"
      + "   dump position stride 1 " + "filename \"trajectory.xyz\"\n"
      + "   run " + IntToString(m.runTime) + "\n"
      + "end\n\n"
  }

  function OutputBlock(printOrbitals: bool): string {
    if printOrbitals then "%output\n" + "   print[p_mos] 1\n" + "   print[p_basis] 2\n" + "end\n\n"
    else ""
  }

  function Banner(title: string): string {
    "# avogadro generated ORCA file\n" + "# " + title + "\n" + "# \n"
  }

  /** The "!" simple-input line: calculation, theory, basis, solvation. */
  function KeywordLine(f: InputFile): string {
    "! " + f.calculation + " " + f.theory + " " + f.basis + " " + f.solvation + "\n\n"
  }

  function ResourceBlocks(maxcore: int, nprocs: int): string {
    "%maxcore " + IntToString(maxcore) + "\n\n"
    + "%pal\n" + "   nprocs " + IntToString(nprocs) + "\n" + "end\n\n"
  }

  /** Everything before the coordinate block. */
  function Preamble(f: InputFile): string {
    Banner(f.title)
    + KeywordLine(f)
    + ResourceBlocks(f.maxcore, f.nprocs)
    + SmdBlock(f.smdSolvent)
    + MdBlock(f.md)
    + OutputBlock(f.printOrbitals)
  }

  function ChargeLine(charge: int, multiplicity: int): string {
    "* xyz " + IntToString(charge) + " " + IntToString(multiplicity) + "\n"
  }

  const Back := "\n*\n\n\n"

  /** The file text, as `generateInputFile` writes it. */
  function Render(f: InputFile): string {
    Preamble(f) + (ChargeLine(f.charge, f.multiplicity) + Placeholder(CoordinateTag) + Back)
  }

  /** The banner and the "!" keyword line open the file, the coordinate
      block closes it, and the optional blocks sit in between. */
  lemma RenderFrame(f: InputFile)
    ensures StartsWith(Render(f), Banner(f.title) + KeywordLine(f))
    ensures EndsWith(Render(f), ChargeLine(f.charge, f.multiplicity) + Placeholder(CoordinateTag) + Back)
  {
    var head := Banner(f.title) + KeywordLine(f);
    var p1 := head + ResourceBlocks(f.maxcore, f.nprocs);
    var p2 := p1 + SmdBlock(f.smdSolvent);
    var p3 := p2 + MdBlock(f.md);
    var tail := ChargeLine(f.charge, f.multiplicity) + Placeholder(CoordinateTag) + Back;
    StartsWithAppended(head, ResourceBlocks(f.maxcore, f.nprocs));
    StartsWithExtended(p1, head, SmdBlock(f.smdSolvent));
    StartsWithExtended(p2, head, MdBlock(f.md));
    StartsWithExtended(p3, head, OutputBlock(f.printOrbitals));
    assert Preamble(f) == p3 + OutputBlock(f.printOrbitals);
    StartsWithExtended(Preamble(f), head, tail);
    EndsWithAppended(Preamble(f), tail);
  }

  /** A file is produced exactly when there is a non-zero core count, a
      handled calculation type, and (with RI on) a basis the RI table knows. */
  function GenerateInputFile(o: Options): (r: Result<string>)
    ensures r.Ok? <==>
      && o.cores != 0
      && o.calculationType in CalculationTypeOption.values
      && (RiOff(o.ri) || o.basis in AuxTable(o.ri))
    ensures o.cores == 0 ==> r == Err(ZeroDivisionError)
    ensures o.cores != 0 && o.calculationType !in CalculationTypeOption.values ==>
      r == Err(UnhandledOption("Calculation Type", o.calculationType))
    ensures (o.cores != 0 && o.calculationType in CalculationTypeOption.values
      && !RiOff(o.ri) && o.basis !in AuxTable(o.ri)) ==> r == Err(KeyError(o.basis))
  {
    var f :- Compile(o);
    Ok(Render(f))
  }

  // ---------------------------------------------------------------------
  // Properties of the compiler
  // ---------------------------------------------------------------------

  /** Schema-valid options always compile: the calculation type is one the
      compiler handles, the basis is in both auxiliary tables and the core
      count is at least one. */
  lemma CompilesWhenValid(o: Options)
    requires Valid(o)
    ensures Compile(o).Ok?
  {
    BasisTablesCoverSchema();
  }

  /** With the RI approximation off, AutoAux has no effect, the basis token
      is the basis alone and the theory carries no RI suffix. */
  lemma RiOffForcesAutoAuxOff(o: Options)
    requires RiOff(o.ri)
    ensures Compile(o.(autoAux := true)) == Compile(o.(autoAux := false))
    ensures Compile(o).Ok? ==>
      Compile(o).value.basis == o.basis
      && Compile(o).value.theory == o.theory + DispersionSuffix(o.dispersion)
  {
  }

  /** With the RI approximation on, the basis token is the basis followed by
      the auxiliary basis: "AutoAux" when AutoAux is set, otherwise the entry
      of the RIJ table (RIJONX, RIJCOSX) or the RIJK table (anything else). */
  lemma RiOnSelectsAuxiliaryBasis(o: Options)
    requires !RiOff(o.ri) && Compile(o).Ok?
    ensures o.basis in RijBasis || o.basis in RijkBasis
    ensures o.autoAux ==> Compile(o).value.basis == o.basis + " AutoAux"
    ensures !o.autoAux && (o.ri == "RIJONX" || o.ri == "RIJCOSX") ==>
      Compile(o).value.basis == o.basis + " " + RijBasis[o.basis]
    ensures !o.autoAux && o.ri != "RIJONX" && o.ri != "RIJCOSX" ==>
      Compile(o).value.basis == o.basis + " " + RijkBasis[o.basis]
    ensures Compile(o).value.theory == o.theory + DispersionSuffix(o.dispersion) + " " + o.ri
  {
    assert o.basis + " " + "AutoAux" == o.basis + " AutoAux";
  }

  /** The solvation keyword and the %cpcm block agree: CPCM names the solvent
      on the keyword line; SMD writes a bare "CPCM" keyword and names the
      solvent in the %cpcm block; without a solvent neither appears. */
  lemma SolvationKeywordAndBlock(o: Options)
    requires Compile(o).Ok?
    ensures var f := Compile(o).value;
      && (SolventActive(o.solvation) && o.solvationType == "CPCM" ==>
            f.solvation == "CPCM(" + o.solvation + ")" && f.smdSolvent.None?)
      && (SolventActive(o.solvation) && o.solvationType == "SMD" ==>
            f.solvation == "CPCM" && f.smdSolvent == Some(o.solvation))
      && (!SolventActive(o.solvation) || (o.solvationType != "CPCM" && o.solvationType != "SMD") ==>
            f.solvation == "" && f.smdSolvent.None?)
  {
  }

  /** "None (gas)" is the gas phase; "-" counts as a solvent. */
  lemma GasPhaseIsTheNoneEntry()
    ensures !SolventActive("None (gas)")
    ensures SolventActive("-")
  {
    assert "None (gas)"[..4] == "None";
  }

  /** No string option contains the placeholder delimiter '$'. */
  predicate DollarFree(o: Options) {
    && '$' !in o.title && '$' !in o.theory && '$' !in o.ri && '$' !in o.dispersion
    && '$' !in o.basis && '$' !in o.solvation && '$' !in o.timeStep && '$' !in o.initvel
    && '$' !in o.thermostatTime
  }

  /** No text field of the compiled file contains '$'. */
  predicate FileDollarFree(f: InputFile) {
    && '$' !in f.title && '$' !in f.calculation && '$' !in f.theory && '$' !in f.basis
    && '$' !in f.solvation
    && (f.smdSolvent.Some? ==> '$' !in f.smdSolvent.value)
    && (f.md.Some? ==> '$' !in f.md.value.timestep && '$' !in f.md.value.initvel
                       && '$' !in f.md.value.timecon)
  }

  lemma RijBasisDollarFree()
    ensures forall b :: b in RijBasis ==> '$' !in RijBasis[b]
  {
  }

  lemma RijkBasisDollarFree()
    ensures forall b :: b in RijkBasis ==> '$' !in RijkBasis[b]
  {
  }

  lemma CompileKeepsDollarFree(o: Options)
    requires DollarFree(o) && Compile(o).Ok?
    ensures FileDollarFree(Compile(o).value)
  {
    RijBasisDollarFree();
    RijkBasisDollarFree();
  }

  lemma SmdBlockDollarFree(smdSolvent: Option<string>)
    requires smdSolvent.Some? ==> '$' !in smdSolvent.value
    ensures '$' !in SmdBlock(smdSolvent)
  {
  }

  lemma MdBlockDollarFree(md: Option<MdSettings>)
    requires md.Some? ==> '$' !in md.value.timestep && '$' !in md.value.initvel && '$' !in md.value.timecon
    ensures '$' !in MdBlock(md)
  {
    if md.Some? {
      var m := md.value;
      IntToStringHasNoDollar(m.thermostatTemp);
      IntToStringHasNoDollar(m.runTime);
      var s1 := "%md\n" + "   timestep " + m.timestep + "\n";
      assert '$' !in s1;
      var s2 := s1 + "   initvel " + m.initvel + "_k\n";
      assert '$' !in s2;
      var s3 := s2 + "   thermostat berendsen " + IntToString(m.thermostatTemp) + "_k timecon ";
      assert '$' !in s3;
      var s4 := s3 + m.timecon + "\n" + "   dump position stride 1 ";
      assert '$' !in s4;
      var s5 := s4 + "filename \"trajectory.xyz\"\n" + "   run " + IntToString(m.runTime) + "\n";
      assert '$' !in s5;
      assert MdBlock(md) == s5 + "end\n\n";
    }
  }

  lemma ResourceBlocksDollarFree(maxcore: int, nprocs: int)
    ensures '$' !in ResourceBlocks(maxcore, nprocs)
  {
    IntToStringHasNoDollar(maxcore);
    IntToStringHasNoDollar(nprocs);
  }

  lemma BannerDollarFree(title: string)
    requires '$' !in title
    ensures '$' !in Banner(title)
  {
  }

  lemma KeywordLineDollarFree(f: InputFile)
    requires FileDollarFree(f)
    ensures '$' !in KeywordLine(f)
  {
  }

  lemma OutputBlockDollarFree(printOrbitals: bool)
    ensures '$' !in OutputBlock(printOrbitals)
  {
    assert '$' !in "   print[p_mos] 1\n";
    assert '$' !in "   print[p_basis] 2\n";
  }

  lemma PreambleDollarFree(f: InputFile)
    requires FileDollarFree(f)
    ensures '$' !in Preamble(f)
  {
    OutputBlockDollarFree(f.printOrbitals);
    SmdBlockDollarFree(f.smdSolvent);
    MdBlockDollarFree(f.md);
    ResourceBlocksDollarFree(f.maxcore, f.nprocs);
    BannerDollarFree(f.title);
    KeywordLineDollarFree(f);
  }

  /** A file whose text fields are '$'-free holds exactly one placeholder,
      whichever optional blocks it has. */
  lemma FilePlaceholderOnce(f: InputFile)
    requires FileDollarFree(f)
    ensures Occurrences(Render(f), Placeholder(CoordinateTag)) == 1
  {
    PreambleDollarFree(f);
    IntToStringHasNoDollar(f.charge);
    IntToStringHasNoDollar(f.multiplicity);
    PlaceholderOnceIn(Preamble(f), ChargeLine(f.charge, f.multiplicity), CoordinateTag, Back);
  }

  /** The generated file holds exactly one geometry placeholder, provided the
      free-text options do not themselves contain '$'. */
  lemma OnePlaceholder(o: Options)
    requires DollarFree(o) && GenerateInputFile(o).Ok?
    ensures Occurrences(GenerateInputFile(o).value, Placeholder(CoordinateTag)) == 1
  {
    CompileKeepsDollarFree(o);
    FilePlaceholderOnce(Compile(o).value);
  }

  /** The file ends with the coordinate block: charge and multiplicity, the
      placeholder, the closing star and two blank lines. */
  lemma EndsWithCoordinateBlock(o: Options)
    requires GenerateInputFile(o).Ok?
    ensures EndsWith(GenerateInputFile(o).value,
      "* xyz " + IntToString(o.charge) + " " + IntToString(o.multiplicity) + "\n"
      + Placeholder(CoordinateTag) + "\n*\n\n\n")
  {
    var f := Compile(o).value;
    EndsWithAppended(Preamble(f), ChargeLine(f.charge, f.multiplicity) + Placeholder(CoordinateTag) + Back);
  }

  // ---------------------------------------------------------------------
  // Response
  // ---------------------------------------------------------------------

  const Extension := "inp"

  /** `generateInput` without the standard-input and JSON plumbing: the
      options, the raw request text and the debug flag are parameters. */
  function GenerateInput(o: Options, rawRequest: string, debug: bool): (r: Result<Envelope.Response>)
    ensures r.Ok? <==> GenerateInputFile(o).Ok?
    ensures o.cores == 0 ==> r == Err(ZeroDivisionError)
    ensures r.Ok? ==> r.value.mainFile == o.filenameBase + ".inp"
    ensures r.Ok? ==> |r.value.files| == (if debug then 2 else 1)
    ensures r.Ok? ==> r.value.files[0] == Envelope.File(r.value.mainFile, GenerateInputFile(o).value)
    ensures r.Ok? && debug ==> r.value.files[1] == Envelope.File(Envelope.DebugFileName, rawRequest)
    ensures r.Ok? ==> r.value.warnings.None? && Envelope.MainFileUnique(r.value)
  {
    match GenerateInputFile(o)
    case Err(e) => Err(e)
    case Ok(text) => Ok(Envelope.Assemble(o.filenameBase, Extension, text, rawRequest, debug, []))
  }
}
