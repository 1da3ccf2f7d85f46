/** The MOPAC input generator (mopac.py): option schema, compiler and
    response assembly. A MOPAC deck is one keyword line, a title line, a
    blank line and the geometry placeholder; `Deck` holds what the keyword
    line says, `Render` lays it out.
 */
module Mopac {
  import opened Results
  import opened Schema
  import opened Decimal
  import opened Text
  import Envelope

  // ---------------------------------------------------------------------
  // Option schema
  // ---------------------------------------------------------------------

  const TitleOption := StringOption("Title", "")
  const CoresOption := IntegerOption("Processor Cores", 1, Some(1), None)
  const CalculationTypeOption := StringListOption("Calculation Type",
    ["Single Point", "Equilibrium Geometry", "Frequencies", "Transition State"], Index(1))
  const TheoryOption := StringListOption("Theory",
    ["AM1", "PM3", "PM6", "PM7", "RM1", "MNDO", "MNDOD"], Index(3))
  const FilenameBaseOption := StringOption("Filename Base", "job")
  const MultiplicityOption := IntegerOption("Multiplicity", 1, Some(1), Some(6))
  const ChargeOption := IntegerOption("Charge", 0, Some(-9), Some(9))
  const CosmoOption := BooleanOption("COSMO", true)
  const SolventOption := StringListOption("Solvent",
    ["OTHER", "Acetic acid", "Acetone", "Acetonitrile", "Anisole", "Benzene",
     "Bromobenzene", "Carbon disulfide", "Carbon tetrachloride",
     "Chlorobenzene", "Chloroform", "Cyclohexane", "Dibutyl ether",
     "o-Dichlorobenzene", "1,2-Dichloroethane", "Dichloromethane",
     "Diethylamine", "Diethylether", "1,2-Dimethoxyethane",
     "N,N-Dimethylacetamide", "N,N-Dimethylformamide",
     "Dimethylsulfoxide", "1,4-Dioxane", "Ethanol",
     "Ethyl acetate", "Ethyl benzoate", "Formamide",
     "Hexamethylphosphoramide", "Isopropyl lcohol",
     "Methanol", "2-Methyl-2-propanol", "Nitrobenzene",
     "Nitromethane", "Pyridine", "Tetrahydrofuran",
     "Toluene", "Trichloroethylene", "Triethylamine",
     "Trifluoroacetic acid", "2,2,2-Trifluoroethanol",
     "Water", "o-Xylene"],
    Literal("Water"))
  const OtherDielectricOption := StringOption("Other Solvent Dielectric", "0.00")
  const HfTypeOption := StringListOption("HF Type", ["RHF", "UHF"], Literal("RHF"))

  function UserOptions(): OptionSchema {
    OptionSchema(
      [ Tab(None,
            [TitleOption, CoresOption, CalculationTypeOption, TheoryOption, FilenameBaseOption,
             MultiplicityOption, ChargeOption, CosmoOption, SolventOption, OtherDielectricOption,
             HfTypeOption]) ],
      None)
  }

  lemma UserOptionsWellFormed()
    ensures WellFormed(UserOptions())
  {
  }

  // ---------------------------------------------------------------------
  // Resolved options
  // ---------------------------------------------------------------------

  datatype Options = Options(
    title: string,
    cores: int,
    calculationType: string,
    theory: string,
    filenameBase: string,
    multiplicity: int,
    charge: int,
    cosmo: bool,
    solvent: string,
    otherDielectric: string,
    hfType: string)

  predicate Valid(o: Options) {
    && Admits(TitleOption, StringValue(o.title))
    && Admits(CoresOption, IntegerValue(o.cores))
    && Admits(CalculationTypeOption, StringValue(o.calculationType))
    && Admits(TheoryOption, StringValue(o.theory))
    && Admits(FilenameBaseOption, StringValue(o.filenameBase))
    && Admits(MultiplicityOption, IntegerValue(o.multiplicity))
    && Admits(ChargeOption, IntegerValue(o.charge))
    && Admits(CosmoOption, BooleanValue(o.cosmo))
    && Admits(SolventOption, StringValue(o.solvent))
    && Admits(OtherDielectricOption, StringValue(o.otherDielectric))
    && Admits(HfTypeOption, StringValue(o.hfType))
  }

  function Defaults(): (o: Options)
    ensures Valid(o)
  {
    Options(
      TitleOption.defaultText, CoresOption.defaultNumber, DefaultString(CalculationTypeOption),
      DefaultString(TheoryOption), FilenameBaseOption.defaultText,
      MultiplicityOption.defaultNumber, ChargeOption.defaultNumber, CosmoOption.defaultFlag,
      DefaultString(SolventOption), OtherDielectricOption.defaultText, DefaultString(HfTypeOption))
  }

  // ---------------------------------------------------------------------
  // Lookup tables
  // ---------------------------------------------------------------------

  /** Dielectric constants, as the text Python's `str` gives for the
      script's numbers. */
  const DielectricTable: map<string, string> := map[
    "Acetic acid" := "6.15", "Acetone" := "20.7", "Acetonitrile" := "37.5",
    "Anisole" := "4.33", "Benzene" := "2.27", "Bromobenzene" := "5.17",
    "Carbon disulfide" := "2.6", "Carbon tetrachloride" := "2.24",
    "Chlorobenzene" := "5.62", "Chloroform" := "4.81", "Cyclohexane" := "2.02",
    "Dibutyl ether" := "3.1", "o-Dichlorobenzene" := "9.93",
    "1,2-Dichloroethane" := "10.36", "Dichloromethane" := "8.93", "Diethylamine" := "3.6",
    "Diethylether" := "4.33", "1,2-Dimethoxyethane" := "7.2",
    "N,N-Dimethylacetamide" := "37.8", "N,N-Dimethylformamide" := "36.7",
    "Dimethylsulfoxide" := "46.7", "1,4-Dioxane" := "2.25", "Ethanol" := "24.5",
    "Ethyl acetate" := "6.02", "Ethyl benzoate" := "6.02", "Formamide" := "111",
    "Hexamethylphosphoramide" := "30", "Isopropyl lcohol" := "17.9", "Methanol" := "32.7",
    "2-Methyl-2-propanol" := "10.9", "Nitrobenzene" := "34.82", "Nitromethane" := "35.87",
    "Pyridine" := "12.4", "Tetrahydrofuran" := "7.58", "Toluene" := "2.38",
    "Trichloroethylene" := "3.4", "Triethylamine" := "2.42",
    "Trifluoroacetic acid" := "8.55", "2,2,2-Trifluoroethanol" := "8.55",
    "Water" := "80.1", "o-Xylene" := "2.57"]

  /** Every solvent the schema offers other than "OTHER" has a dielectric
      constant. */
  lemma DielectricTableCoversSchema()
    ensures forall s :: s in SolventOption.values && s != "OTHER" ==> s in DielectricTable
  {
  }

  /** Spin-state keywords, indexed by multiplicity - 1. */
  const SpinStates := ["SINGLET", "DOUBLET", "TRIPLET", "QUARTET", "QUINTET", "SEXTET"]

  // ---------------------------------------------------------------------
  // Compiler
  // ---------------------------------------------------------------------

  /** The MOPAC spin-state keyword for a multiplicity. */
  function SpinState(multiplicity: int): (r: Result<string>)
    ensures r.Ok? <==> 1 <= multiplicity <= |SpinStates|
    ensures r.Ok? ==> r.value == SpinStates[multiplicity - 1]
    ensures r.Err? ==> r.error == UnhandledMultiplicity(multiplicity)
  {
    if multiplicity == 1 then Ok("SINGLET")
    else if multiplicity == 2 then Ok("DOUBLET")
    else if multiplicity == 3 then Ok("TRIPLET")
    else if multiplicity == 4 then Ok("QUARTET")
    else if multiplicity == 5 then Ok("QUINTET")
    else if multiplicity == 6 then Ok("SEXTET")
    else Err(UnhandledMultiplicity(multiplicity))
  }

  /** The MOPAC keyword for a calculation type; an equilibrium geometry is
      MOPAC's default and needs none. */
  function CalculationKeyword(calculationType: string): (r: Result<string>)
    ensures r.Ok? <==> calculationType in CalculationTypeOption.values
    ensures r.Err? ==> r.error == UnhandledOption("Calculation Type", calculationType)
    ensures r == Ok("") <==> calculationType == "Equilibrium Geometry"
  {
    if calculationType == "Single Point" then Ok("NOOPT")
    else if calculationType == "Equilibrium Geometry" then Ok("")
    else if calculationType == "Frequencies" then Ok("FORCE")
    else if calculationType == "Transition State" then Ok("SADDLE")
    else Err(UnhandledOption("Calculation Type", calculationType))
  }

  /** The MOPAC keywords, in the order the schema lists the calculation types. */
  const CalculationKeywords := ["NOOPT", "", "FORCE", "SADDLE"]

  /** Each calculation type the schema offers maps to the keyword in the
      same position. */
  lemma CalculationKeywordTable()
    ensures |CalculationKeywords| == |CalculationTypeOption.values|
    ensures forall i :: 0 <= i < |CalculationKeywords| ==>
      CalculationKeyword(CalculationTypeOption.values[i]) == Ok(CalculationKeywords[i])
  {
  }

  /** The dielectric constant: the user's text for "OTHER", the table's
      entry otherwise (a missing entry is a `KeyError`). */
  function Dielectric(solvent: string, otherDielectric: string): (r: Result<string>)
    ensures solvent == "OTHER" ==> r == Ok(otherDielectric)
    ensures solvent != "OTHER" ==> (r.Ok? <==> solvent in DielectricTable)
    ensures solvent != "OTHER" && r.Ok? ==> r.value == DielectricTable[solvent]
    ensures r.Err? ==> r.error == KeyError(solvent)
  {
    if solvent == "OTHER" then Ok(otherDielectric)
    else if solvent in DielectricTable then Ok(DielectricTable[solvent])
    else Err(KeyError(solvent))
  }

  /** What the generated deck says. */
  datatype Deck = Deck(
    charge: int,
    spinState: string,
    calculation: string,
    theory: string,
    dielectric: Option<string>,   // EPS= keyword, present with COSMO
    threads: int,
    hfType: string,
    title: string,
    coordinateTag: string)

  function Compile(o: Options): (r: Result<Deck>)
    ensures r.Ok? <==>
      && 1 <= o.multiplicity <= 6
      && o.calculationType in CalculationTypeOption.values
      && (o.solvent == "OTHER" || o.solvent in DielectricTable)
    ensures !(1 <= o.multiplicity <= 6) ==> r == Err(UnhandledMultiplicity(o.multiplicity))
    ensures 1 <= o.multiplicity <= 6 && o.calculationType !in CalculationTypeOption.values ==>
      r == Err(UnhandledOption("Calculation Type", o.calculationType))
    ensures (1 <= o.multiplicity <= 6 && o.calculationType in CalculationTypeOption.values
      && o.solvent != "OTHER" && o.solvent !in DielectricTable) ==> r == Err(KeyError(o.solvent))
    ensures r.Ok? ==> r.value.spinState == SpinStates[o.multiplicity - 1]
    ensures r.Ok? ==> r.value.calculation == CalculationKeyword(o.calculationType).value
    ensures r.Ok? ==> r.value.charge == o.charge && r.value.threads == o.cores
    ensures r.Ok? ==> r.value.theory == o.theory && r.value.title == o.title
    ensures r.Ok? ==> (r.value.dielectric.Some? <==> o.cosmo)
    ensures r.Ok? && o.cosmo && o.solvent == "OTHER" ==> r.value.dielectric == Some(o.otherDielectric)
    ensures r.Ok? && o.cosmo && o.solvent != "OTHER" ==>
      r.value.dielectric == Some(DielectricTable[o.solvent])
    ensures r.Ok? ==> r.value.hfType == (if o.multiplicity > 1 then "UHF" else o.hfType)
    ensures r.Ok? ==>
      r.value.coordinateTag == (if o.calculationType == "Single Point" then "Sx0y0z0" else "Sx1y1z1")
  {
    var spinState :- SpinState(o.multiplicity);
    var calculation :- CalculationKeyword(o.calculationType);
    var dielectric :- Dielectric(o.solvent, o.otherDielectric);
    Ok(Deck(
      o.charge,
      spinState,
      calculation,
      o.theory,
      if o.cosmo then Some(dielectric) else None,
      o.cores,
      if o.multiplicity > 1 then "UHF" else o.hfType,
      o.title,
      if o.calculationType == "Single Point" then "Sx0y0z0" else "Sx1y1z1"))
  }

  function EpsKeyword(dielectric: Option<string>): string {
    match dielectric
    case None => ""
    case Some(d) => "EPS=" + d
  }

  /** The keyword line: charge, spin state, calculation, theory, solvent,
      output and thread count, Hartree-Fock type. */
  function KeywordLine(d: Deck): string {
    " AUX LARGE CHARGE=" + IntToString(d.charge) + " " + d.spinState + " " + d.calculation
    + " " + d.theory + " " + EpsKeyword(d.dielectric) + " PDBOUT THREADS="
    + IntToString(d.threads) + " " + d.hfType + "\n"
  }

  /** The deck text, as `generateInputFile` writes it. */
  function Render(d: Deck): string {
    KeywordLine(d) + d.title + "\n\n" + Placeholder(d.coordinateTag) + "\n"
  }

  /** The keyword line, the title and a blank line open the deck; the
      placeholder line closes it. */
  lemma RenderFrame(d: Deck)
    ensures StartsWith(Render(d), KeywordLine(d) + d.title + "\n\n")
    ensures EndsWith(Render(d), Placeholder(d.coordinateTag) + "\n")
  {
    var head := KeywordLine(d) + d.title + "\n\n";
    var tail := Placeholder(d.coordinateTag) + "\n";
    assert Render(d) == head + tail;
    StartsWithAppended(head, tail);
    EndsWithAppended(head, tail);
  }

  /** A deck is produced exactly when the multiplicity is 1 to 6, the
      calculation type is handled and the solvent is OTHER or tabulated. */
  function GenerateInputFile(o: Options): (r: Result<string>)
    ensures r.Ok? <==>
      && 1 <= o.multiplicity <= 6
      && o.calculationType in CalculationTypeOption.values
      && (o.solvent == "OTHER" || o.solvent in DielectricTable)
    ensures !(1 <= o.multiplicity <= 6) ==> r == Err(UnhandledMultiplicity(o.multiplicity))
    ensures 1 <= o.multiplicity <= 6 && o.calculationType !in CalculationTypeOption.values ==>
      r == Err(UnhandledOption("Calculation Type", o.calculationType))
    ensures (1 <= o.multiplicity <= 6 && o.calculationType in CalculationTypeOption.values
      && o.solvent != "OTHER" && o.solvent !in DielectricTable) ==> r == Err(KeyError(o.solvent))
  {
    var d :- Compile(o);
    Ok(Render(d))
  }

  // ---------------------------------------------------------------------
  // Properties of the compiler
  // ---------------------------------------------------------------------

  lemma CompilesWhenValid(o: Options)
    requires Valid(o)
    ensures Compile(o).Ok?
  {
    DielectricTableCoversSchema();
  }

  /** The solvent is looked up whether or not COSMO is on, so an unknown
      solvent fails the job even when no EPS= keyword would be written. */
  lemma SolventLookedUpWithoutCosmo(o: Options)
    ensures Compile(o.(cosmo := false)).Ok? <==> Compile(o.(cosmo := true)).Ok?
    ensures o.solvent != "OTHER" && o.solvent !in DielectricTable &&
            SpinState(o.multiplicity).Ok? && CalculationKeyword(o.calculationType).Ok? ==>
            Compile(o) == Err(KeyError(o.solvent))
  {
  }

  /** The keyword line carries EPS= exactly when COSMO is on, with the user's
      text for "OTHER" and the table's entry otherwise. */
  lemma EpsIffCosmo(o: Options)
    requires Compile(o).Ok?
    ensures var eps := EpsKeyword(Compile(o).value.dielectric);
      && (!o.cosmo ==> eps == "")
      && (o.cosmo && o.solvent == "OTHER" ==> eps == "EPS=" + o.otherDielectric)
      && (o.cosmo && o.solvent != "OTHER" ==> eps == "EPS=" + DielectricTable[o.solvent])
  {
  }

  /** Water with COSMO writes the table's 80.1. */
  lemma WaterDielectric(o: Options)
    requires o.solvent == "Water" && o.cosmo && Compile(o).Ok?
    ensures EpsKeyword(Compile(o).value.dielectric) == "EPS=80.1"
  {
  }

  /** Any multiplicity above one forces UHF whatever the HF Type option says. */
  lemma HighSpinForcesUhf(o: Options)
    requires o.multiplicity > 1 && Compile(o).Ok?
    ensures Compile(o).value.hfType == "UHF"
    ensures Compile(o.(hfType := "RHF")) == Compile(o.(hfType := "UHF"))
  {
  }

  predicate DollarFree(o: Options) {
    '$' !in o.title && '$' !in o.theory && '$' !in o.otherDielectric && '$' !in o.hfType
  }

  lemma DielectricTableDollarFree()
    ensures forall s :: s in DielectricTable ==> '$' !in DielectricTable[s]
  {
  }

  lemma KeywordLineDollarFree(d: Deck)
    requires '$' !in d.spinState && '$' !in d.calculation && '$' !in d.theory && '$' !in d.hfType
    requires d.dielectric.Some? ==> '$' !in d.dielectric.value
    ensures '$' !in KeywordLine(d)
  {
    IntToStringHasNoDollar(d.charge);
    IntToStringHasNoDollar(d.threads);
  }

  predicate DeckDollarFree(d: Deck) {
    && '$' !in d.spinState && '$' !in d.calculation && '$' !in d.theory && '$' !in d.hfType
    && '$' !in d.title && '$' !in d.coordinateTag
    && (d.dielectric.Some? ==> '$' !in d.dielectric.value)
  }

  lemma DielectricDollarFree(solvent: string, otherDielectric: string)
    requires '$' !in otherDielectric && Dielectric(solvent, otherDielectric).Ok?
    ensures '$' !in Dielectric(solvent, otherDielectric).value
  {
    DielectricTableDollarFree();
  }

  lemma KeywordsDollarFree(o: Options)
    requires Compile(o).Ok?
    ensures '$' !in SpinState(o.multiplicity).value
    ensures '$' !in CalculationKeyword(o.calculationType).value
  {
  }

  lemma CompileKeepsDollarFree(o: Options)
    requires DollarFree(o) && Compile(o).Ok?
    ensures DeckDollarFree(Compile(o).value)
  {
    DielectricDollarFree(o.solvent, o.otherDielectric);
    KeywordsDollarFree(o);
  }

  lemma DeckPlaceholderOnce(d: Deck)
    requires DeckDollarFree(d)
    ensures Occurrences(Render(d), Placeholder(d.coordinateTag)) == 1
  {
    KeywordLineDollarFree(d);
    PlaceholderOnce(KeywordLine(d) + d.title + "\n\n", d.coordinateTag, "\n");
  }

  /** The deck holds exactly one placeholder, tagged Sx0y0z0 for a single
      point and Sx1y1z1 otherwise, provided the free-text options contain no '$'. */
  lemma OnePlaceholder(o: Options)
    requires DollarFree(o) && GenerateInputFile(o).Ok?
    ensures var tag := if o.calculationType == "Single Point" then "Sx0y0z0" else "Sx1y1z1";
      Occurrences(GenerateInputFile(o).value, Placeholder(tag)) == 1
  {
    CompileKeepsDollarFree(o);
    DeckPlaceholderOnce(Compile(o).value);
  }

  // ---------------------------------------------------------------------
  // Response
  // ---------------------------------------------------------------------

  const Extension := "mop"

  function GenerateInput(o: Options, rawRequest: string, debug: bool): (r: Result<Envelope.Response>)
    ensures r.Ok? <==> GenerateInputFile(o).Ok?
    ensures !(1 <= o.multiplicity <= 6) ==> r == Err(UnhandledMultiplicity(o.multiplicity))
    ensures r.Ok? ==> r.value.mainFile == o.filenameBase + ".mop"
    ensures r.Ok? ==> |r.value.files| == (if debug then 2 else 1)
    ensures r.Ok? ==> r.value.files[0] == Envelope.File(r.value.mainFile, GenerateInputFile(o).value)
    ensures r.Ok? && debug ==> r.value.files[1] == Envelope.File(Envelope.DebugFileName, rawRequest)
    ensures r.Ok? ==> r.value.warnings.None? && Envelope.MainFileUnique(r.value)
  {
    match GenerateInputFile(o)
    case Err(e) => Err(e)
    case Ok(text) => Ok(Envelope.Assemble(o.filenameBase, Extension, text, rawRequest, debug, []))
  }
}
