/** The PySCF script generator (pyscf.py): option schema, compiler and
    response assembly. The generator asks for its molecule as CJSON but
    writes the geometry through the placeholder, so the CJSON document it is
    handed is never read.
 */
module Pyscf {
  import opened Results
  import opened Schema
  import opened Decimal
  import opened Text
  import Envelope

  // ---------------------------------------------------------------------
  // Option schema
  // ---------------------------------------------------------------------

  /** The basis and method lists, shared by the schema and the compiler. */
  const BasisList := ["STO-3G", "3-21g", "cc-pvdz"]
  const TheoryList := ["RHF", "ROHF", "UHF", "MP2"]

  const TitleOption := StringOption("Title", "")
  const CalculationTypeOption := StringListOption("Calculation Type", ["Single Point"], Index(0))
  const TheoryOption := StringListOption("Theory", TheoryList, Index(0))
  const BasisOption := StringListOption("Basis", BasisList, Index(0))
  const FilenameBaseOption := StringOption("Filename Base", "job")
  const ChargeOption := IntegerOption("Charge", 0, Some(-9), Some(9))
  const MultiplicityOption := IntegerOption("Multiplicity", 1, Some(1), Some(6))

  function UserOptions(): OptionSchema {
    OptionSchema(
      [ Tab(None,
            [TitleOption, CalculationTypeOption, TheoryOption, BasisOption, FilenameBaseOption,
             ChargeOption, MultiplicityOption]) ],
      Some("cjson"))
  }

  lemma UserOptionsWellFormed()
    ensures WellFormed(UserOptions())
    ensures UserOptions().inputMoleculeFormat == Some("cjson")
  {
  }

  // ---------------------------------------------------------------------
  // Resolved options
  // ---------------------------------------------------------------------

  datatype Options = Options(
    title: string,
    calculationType: string,
    theory: string,
    basis: string,
    filenameBase: string,
    charge: int,
    multiplicity: int)

  predicate Valid(o: Options) {
    && Admits(TitleOption, StringValue(o.title))
    && Admits(CalculationTypeOption, StringValue(o.calculationType))
    && Admits(TheoryOption, StringValue(o.theory))
    && Admits(BasisOption, StringValue(o.basis))
    && Admits(FilenameBaseOption, StringValue(o.filenameBase))
    && Admits(ChargeOption, IntegerValue(o.charge))
    && Admits(MultiplicityOption, IntegerValue(o.multiplicity))
  }

  function Defaults(): (o: Options)
    ensures Valid(o)
  {
    Options(
      TitleOption.defaultText, DefaultString(CalculationTypeOption), DefaultString(TheoryOption),
      DefaultString(BasisOption), FilenameBaseOption.defaultText, ChargeOption.defaultNumber,
      MultiplicityOption.defaultNumber)
  }

  // ---------------------------------------------------------------------
  // Compiler
  // ---------------------------------------------------------------------

  /** The basis name written into the script. Only cc-pvdz is respelled: the
      branch that respells 3-21g as 321g is followed by the if/else on
      cc-pvdz, whose else branch writes the listed name back. */
  function BasisName(basis: string): (r: Result<string>)
    ensures r.Ok? <==> basis in BasisList
    ensures r.Err? ==> r.error == UnhandledOption("Basis", basis)
    ensures r.Ok? && basis != "cc-pvdz" ==> r.value == basis
    ensures r.Ok? ==> ('-' !in r.value <==> basis == "cc-pvdz")
  {
    assert "STO-3G"[3] == '-' && "3-21g"[1] == '-';
    if basis !in BasisList then Err(UnhandledOption("Basis", basis))
    else if basis == "cc-pvdz" then Ok("ccpvdz")
    else Ok(basis)
  }

  const ScfImport := "from pyscf import gto,scf\n"
  const MpImport := "from pyscf import gto,scf,mp\n"
  const Mp2Comment := "# Must run SCF before MP2 in PYSCF\n"

  /** Build a self-consistent-field object of the given kind, then run it. */
  function ScfRun(scf: string, kernelLine: string): seq<string> {
    ["mf = scf." + scf + "(mol)\n", kernelLine]
  }

  /** Build an MP2 object on the converged SCF object, then run it. */
  function Mp2Run(): seq<string> {
    ["mf2 = mp.MP2(mf)\n", "mf2.kernel()\n"]
  }

  /** The lines that run a method. MP2 first runs restricted Hartree-Fock for
      a singlet and unrestricted Hartree-Fock otherwise. */
  function MethodLines(theory: string, multiplicity: int): (r: Result<seq<string>>)
    ensures r.Ok? <==> theory in TheoryList
    ensures r.Err? ==> r.error == UnhandledOption("Theory", theory)
    ensures r.Ok? && theory != "MP2" ==> |r.value| == 2 && r.value[0] == "mf = scf." + theory + "(mol)\n"
    ensures r.Ok? && theory != "MP2" ==>
      r.value[1] == (if theory == "ROHF" then "Amf.kernel()\n" else "mf.kernel()\n")
    ensures r.Ok? && theory == "MP2" ==>
      |r.value| == 5 && r.value[0] == Mp2Comment
      && r.value[1] == "mf = scf." + (if multiplicity == 1 then "RHF" else "UHF") + "(mol)\n"
      && r.value[2] == "mf.kernel()\n"
      && r.value[3] == "mf2 = mp.MP2(mf)\n" && r.value[4] == "mf2.kernel()\n"
  {
    if theory == "RHF" || theory == "UHF" then Ok(ScfRun(theory, "mf.kernel()\n"))
    else if theory == "ROHF" then Ok(ScfRun(theory, "Amf.kernel()\n"))
    else if theory == "MP2" then
      var reference := if multiplicity == 1 then "RHF" else "UHF";
      Ok([Mp2Comment] + ScfRun(reference, "mf.kernel()\n") + Mp2Run())
    else Err(UnhandledOption("Theory", theory))
  }

  /** What the generated script says. */
  datatype Script = Script(
    title: string,
    imports: string,
    basis: string,
    charge: int,
    spin: int,                 // the number of unpaired electrons
    methodLines: seq<string>)

  function Compile(o: Options): (r: Result<Script>)
    ensures r.Ok? <==>
      o.basis in BasisList && o.theory in TheoryList && o.calculationType == "Single Point"
    ensures o.basis !in BasisList ==> r == Err(UnhandledOption("Basis", o.basis))
    ensures o.basis in BasisList && o.theory !in TheoryList ==> r == Err(UnhandledOption("Theory", o.theory))
    ensures r.Ok? ==> r.value.spin + 1 == o.multiplicity
    ensures r.Ok? ==> r.value.imports == (if o.theory == "MP2" then MpImport else ScfImport)
    ensures r.Ok? ==> r.value.title == o.title && r.value.charge == o.charge
    ensures r.Ok? ==> r.value.basis == BasisName(o.basis).value
    ensures r.Ok? ==> r.value.methodLines == MethodLines(o.theory, o.multiplicity).value
  {
    var basis :- BasisName(o.basis);
    var lines :- MethodLines(o.theory, o.multiplicity);
    if o.calculationType != "Single Point" then Err(UnhandledOption("Calculation Type", o.calculationType))
    else
      Ok(Script(
        o.title,
        if o.theory == "MP2" then MpImport else ScfImport,
        basis,
        o.charge,
        o.multiplicity - 1,
        lines))
  }

  const CoordinateTag := "___Sxyz"

  /** Title comment, imports, and the molecule up to the placeholder. */
  function Front(s: Script): string {
    "# Title: " + s.title + "\n" + s.imports + "mol = gto.Mole()\n" + "mol.atom = '''\n"
  }

  /** The rest of the molecule, then the method lines. */
  function Back(s: Script): string {
    "\n'''\n" + "mol.basis = '" + s.basis + "'\n"
    + "mol.charge = " + IntToString(s.charge) + "\n"
    + "mol.spin = " + IntToString(s.spin) + "\n"
    + "mol.build()\n"
    + Concat(s.methodLines)
  }

  /** The script text, as `generateInputFile` writes it. */
  function Render(s: Script): string {
    Front(s) + Placeholder(CoordinateTag) + Back(s)
  }

  /** The title comment and the imports open the script; the method lines
      end it, in order. */
  lemma RenderFrame(s: Script)
    ensures StartsWith(Render(s), "# Title: " + s.title + "\n" + s.imports)
    ensures EndsWith(Render(s), Concat(s.methodLines))
  {
    var head := "# Title: " + s.title + "\n" + s.imports;
    var molecule := "mol = gto.Mole()\n" + "mol.atom = '''\n" + Placeholder(CoordinateTag) + Back(s);
    var body := "\n'''\n" + "mol.basis = '" + s.basis + "'\n"
      + "mol.charge = " + IntToString(s.charge) + "\n"
      + "mol.spin = " + IntToString(s.spin) + "\n"
      + "mol.build()\n";
    assert Render(s) == head + molecule;
    assert Render(s) == (Front(s) + Placeholder(CoordinateTag) + body) + Concat(s.methodLines);
    StartsWithAppended(head, molecule);
    EndsWithAppended(Front(s) + Placeholder(CoordinateTag) + body, Concat(s.methodLines));
  }

  /** The CJSON document is accepted and ignored. A script is produced
      exactly for a listed basis, a listed method and a single point; an
      unlisted basis is reported first. */
  function GenerateInputFile(cjson: string, o: Options): (r: Result<string>)
    ensures r.Ok? <==>
      o.basis in BasisList && o.theory in TheoryList && o.calculationType == "Single Point"
    ensures o.basis !in BasisList ==> r == Err(UnhandledOption("Basis", o.basis))
  {
    var s :- Compile(o);
    Ok(Render(s))
  }

  // ---------------------------------------------------------------------
  // Properties of the compiler
  // ---------------------------------------------------------------------

  lemma CompilesWhenValid(o: Options)
    requires Valid(o)
    ensures Compile(o).Ok?
  {
  }

  lemma CjsonIgnored(o: Options, a: string, b: string)
    ensures GenerateInputFile(a, o) == GenerateInputFile(b, o)
  {
  }

  /** Two of the three listed bases reach the script under their listed name,
      3-21g among them; only cc-pvdz is respelled. */
  lemma BasisSpelling()
    ensures BasisName("STO-3G") == Ok("STO-3G")
    ensures BasisName("3-21g") == Ok("3-21g")
    ensures BasisName("cc-pvdz") == Ok("ccpvdz")
  {
  }

  /** ROHF is run through a name the script never defines. */
  lemma RohfKernelLine(multiplicity: int)
    ensures MethodLines("ROHF", multiplicity).value[1] == "Amf.kernel()\n"
    ensures MethodLines("RHF", multiplicity).value[1] == "mf.kernel()\n"
    ensures MethodLines("UHF", multiplicity).value[1] == "mf.kernel()\n"
  {
  }

  /** MP2's reference: restricted for a singlet, unrestricted otherwise, and
      no other option matters. */
  lemma Mp2Reference(o: Options)
    requires o.theory == "MP2" && Compile(o).Ok?
    ensures Compile(o).value.methodLines[1] == "mf = scf.RHF(mol)\n" <==> o.multiplicity == 1
    ensures Compile(o).value.methodLines[1] == "mf = scf.UHF(mol)\n" <==> o.multiplicity != 1
  {
    assert "mf = scf.RHF(mol)\n"[9] != "mf = scf.UHF(mol)\n"[9];
  }

  /** A calculation type other than a single point is refused even when the
      rest of the options are fine. */
  lemma OnlySinglePoint(o: Options)
    requires o.basis in BasisList && o.theory in TheoryList && o.calculationType != "Single Point"
    ensures Compile(o) == Err(UnhandledOption("Calculation Type", o.calculationType))
  {
  }

  predicate DollarFree(o: Options) {
    '$' !in o.title
  }

  predicate LinesDollarFree(lines: seq<string>) {
    forall k :: 0 <= k < |lines| ==> '$' !in lines[k]
  }

  predicate ScriptDollarFree(s: Script) {
    '$' !in s.title && '$' !in s.imports && '$' !in s.basis && LinesDollarFree(s.methodLines)
  }

  lemma LinesDollarFreeAppend(a: seq<string>, b: seq<string>)
    requires LinesDollarFree(a) && LinesDollarFree(b)
    ensures LinesDollarFree(a + b)
  {
    assert forall k :: |a| <= k < |a + b| ==> (a + b)[k] == b[k - |a|];
  }

  lemma ScfRunDollarFree(scf: string, kernelLine: string)
    requires '$' !in scf && '$' !in kernelLine
    ensures LinesDollarFree(ScfRun(scf, kernelLine))
  {
    assert '$' !in "mf = scf.";
    assert '$' !in "(mol)\n";
  }

  lemma Mp2LinesDollarFree(reference: string)
    requires '$' !in reference
    ensures LinesDollarFree([Mp2Comment] + ScfRun(reference, "mf.kernel()\n") + Mp2Run())
  {
    ScfRunDollarFree(reference, "mf.kernel()\n");
    assert '$' !in Mp2Comment;
    assert LinesDollarFree(Mp2Run());
    LinesDollarFreeAppend([Mp2Comment], ScfRun(reference, "mf.kernel()\n"));
    LinesDollarFreeAppend([Mp2Comment] + ScfRun(reference, "mf.kernel()\n"), Mp2Run());
  }

  lemma MethodLinesDollarFree(theory: string, multiplicity: int)
    requires MethodLines(theory, multiplicity).Ok?
    ensures LinesDollarFree(MethodLines(theory, multiplicity).value)
  {
    if theory == "MP2" {
      Mp2LinesDollarFree(if multiplicity == 1 then "RHF" else "UHF");
    } else if theory == "ROHF" {
      ScfRunDollarFree(theory, "Amf.kernel()\n");
    } else {
      ScfRunDollarFree(theory, "mf.kernel()\n");
    }
  }

  lemma BasisNameDollarFree(basis: string)
    requires BasisName(basis).Ok?
    ensures '$' !in BasisName(basis).value
  {
    if basis != "cc-pvdz" {
      assert basis == "STO-3G" || basis == "3-21g";
    }
  }

  lemma CompileKeepsDollarFree(o: Options)
    requires DollarFree(o) && Compile(o).Ok?
    ensures ScriptDollarFree(Compile(o).value)
  {
    MethodLinesDollarFree(o.theory, o.multiplicity);
    BasisNameDollarFree(o.basis);
    assert '$' !in MpImport;
    assert '$' !in ScfImport;
  }

  lemma FrontDollarFree(s: Script)
    requires ScriptDollarFree(s)
    ensures '$' !in Front(s)
  {
  }

  lemma BackDollarFree(s: Script)
    requires ScriptDollarFree(s)
    ensures '$' !in Back(s)
  {
    IntToStringHasNoDollar(s.charge);
    IntToStringHasNoDollar(s.spin);
  }

  lemma ScriptPlaceholderOnce(s: Script)
    requires ScriptDollarFree(s)
    ensures Occurrences(Render(s), Placeholder(CoordinateTag)) == 1
  {
    FrontDollarFree(s);
    BackDollarFree(s);
    PlaceholderOnce(Front(s), CoordinateTag, Back(s));
  }

  /** The script holds exactly one placeholder, provided the title contains no '$'. */
  lemma OnePlaceholder(cjson: string, o: Options)
    requires DollarFree(o) && GenerateInputFile(cjson, o).Ok?
    ensures Occurrences(GenerateInputFile(cjson, o).value, Placeholder(CoordinateTag)) == 1
  {
    CompileKeepsDollarFree(o);
    ScriptPlaceholderOnce(Compile(o).value);
  }

  // ---------------------------------------------------------------------
  // Response
  // ---------------------------------------------------------------------

  const Extension := "py"

  /** PySCF never reports warnings. */
  function GenerateInput(cjson: string, o: Options, rawRequest: string, debug: bool): (r: Result<Envelope.Response>)
    ensures r.Ok? <==> GenerateInputFile(cjson, o).Ok?
    ensures r.Ok? ==> r.value.mainFile == o.filenameBase + ".py"
    ensures r.Ok? ==> |r.value.files| == (if debug then 2 else 1)
    ensures r.Ok? ==> r.value.files[0] == Envelope.File(r.value.mainFile, GenerateInputFile(cjson, o).value)
    ensures r.Ok? && debug ==> r.value.files[1] == Envelope.File(Envelope.DebugFileName, rawRequest)
    ensures r.Ok? ==> Envelope.MainFileUnique(r.value)
    ensures r.Ok? ==> r.value.warnings.None?
  {
    match GenerateInputFile(cjson, o)
    case Err(e) => Err(e)
    case Ok(text) => Ok(Envelope.Assemble(o.filenameBase, Extension, text, rawRequest, debug, []))
  }
}
