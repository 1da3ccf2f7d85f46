/** The response a generator hands back to the host (the pure half of each
    script's `generateInput`): the generated file named after the user's base
    name and the engine's extension, designated as the main file; with the
    debug flag, a second file holding the raw request verbatim; and, when
    there are any, the compiler's warnings.
 */
module Envelope {
  import opened Results

  datatype File = File(filename: string, contents: string)

  datatype Response = Response(files: seq<File>, mainFile: string, warnings: Option<seq<string>>)

  const DebugFileName := "debug_info"

  /** `mainFile` names exactly one of the files. */
  predicate MainFileUnique(r: Response) {
    && (exists i :: 0 <= i < |r.files| && r.files[i].filename == r.mainFile)
    && forall i, j ::
         (0 <= i < |r.files| && 0 <= j < |r.files| &&
          r.files[i].filename == r.mainFile && r.files[j].filename == r.mainFile) ==> i == j
  }

  function Assemble(baseName: string, extension: string, contents: string,
                    rawRequest: string, debug: bool, warnings: seq<string>): (r: Response)
    ensures r.mainFile == baseName + "." + extension
    ensures |r.files| == (if debug then 2 else 1)
    ensures r.files[0] == File(r.mainFile, contents)
    ensures debug ==> r.files[1] == File(DebugFileName, rawRequest)
    ensures r.warnings.Some? <==> |warnings| > 0
    ensures r.warnings.Some? ==> r.warnings.value == warnings
    ensures MainFileUnique(r)
  {
    var name := baseName + "." + extension;
    assert name[|baseName|] == '.';
    assert name != DebugFileName;
    var main := [File(name, contents)];
    Response(
      if debug then main + [File(DebugFileName, rawRequest)] else main,
      name,
      if |warnings| > 0 then Some(warnings) else None)
  }
}
