// The command-line options of ScriptRunner and the resolution of the
// shorthand flags that parseCommandLine applies after the parser has
// populated them: -all, then -all-rels, then -no-success.

module CommandOptions {

  /** The boolean options, as the parser leaves them. */
  datatype Flags = Flags(
    outputAttributes: bool,   // -attrs
    outputContent: bool,      // -content
    outputFailure: bool,      // -failure
    outputSuccess: bool,      // -success
    allOutput: bool,          // -all
    allRelations: bool,       // -all-rels
    noSuccess: bool)          // -no-success

  /** A populated option set: the positional script path, the string
      options (empty when absent) and the flags. */
  datatype ParsedOptions = ParsedOptions(
    scriptPath: string,
    attrFile: string,
    modulePaths: string,
    inputFileDir: string,
    flags: Flags)

  /** -all turns on attributes, content, success and failure. */
  function ApplyAll(f: Flags): Flags
  {
    if f.allOutput then
      f.(outputAttributes := true, outputContent := true, outputSuccess := true, outputFailure := true)
    else f
  }

  /** -all-rels turns on success and failure. */
  function ApplyAllRelations(f: Flags): Flags
  {
    if f.allRelations then f.(outputSuccess := true, outputFailure := true) else f
  }

  /** -no-success turns success off. */
  function ApplyNoSuccess(f: Flags): Flags
  {
    if f.noSuccess then f.(outputSuccess := false) else f
  }

  /** The three shorthands applied in their fixed order. The last write to
      outputSuccess wins, so -no-success beats -all and -all-rels. */
  function Resolved(f: Flags): (r: Flags)
    ensures r.outputSuccess == (!f.noSuccess && (f.outputSuccess || f.allOutput || f.allRelations))
    ensures r.outputFailure == (f.outputFailure || f.allOutput || f.allRelations)
    ensures r.outputAttributes == (f.outputAttributes || f.allOutput)
    ensures r.outputContent == (f.outputContent || f.allOutput)
    ensures r.allOutput == f.allOutput && r.allRelations == f.allRelations && r.noSuccess == f.noSuccess
  {
    ApplyNoSuccess(ApplyAllRelations(ApplyAll(f)))
  }

  /** The four output switches that the rest of the program reads. */
  function Outputs(f: Flags): (bool, bool, bool, bool)
  {
    (f.outputAttributes, f.outputContent, f.outputSuccess, f.outputFailure)
  }

  /** -all is the same as giving -attrs, -content, -success and -failure. */
  lemma AllIsShorthand(f: Flags)
    requires f.allOutput
    ensures Outputs(Resolved(f)) ==
            Outputs(Resolved(f.(allOutput := false, outputAttributes := true, outputContent := true,
                                outputSuccess := true, outputFailure := true)))
  {
  }

  /** -no-success after -all leaves attributes, content and failure on and
      success off. */
  lemma NoSuccessAfterAll(f: Flags)
    requires f.allOutput && f.noSuccess
    ensures Outputs(Resolved(f)) == (true, true, false, true)
  {
  }

  /** The Options object that picocli populates and parseCommandLine then
      rewrites in place. */
  class Options {
    var outputAttributes: bool
    var outputContent: bool
    var attrFile: string
    var modulePaths: string
    var scriptPath: string
    var inputFileDir: string
    var outputFailure: bool
    var outputSuccess: bool
    var allOutput: bool
    var allRelations: bool
    var noSuccess: bool

    /** The flags as they currently stand in the fields. */
    function CurrentFlags(): Flags
      reads this
    {
      Flags(outputAttributes, outputContent, outputFailure, outputSuccess, allOutput, allRelations, noSuccess)
    }

    /** The whole option set as it currently stands. */
    function Current(): ParsedOptions
      reads this
    {
      ParsedOptions(scriptPath, attrFile, modulePaths, inputFileDir, CurrentFlags())
    }

    /** An Options object populated with what the parser read. */
    constructor (p: ParsedOptions)
      ensures Current() == p
    {
      outputAttributes := p.flags.outputAttributes;
      outputContent := p.flags.outputContent;
      attrFile := p.attrFile;
      modulePaths := p.modulePaths;
      scriptPath := p.scriptPath;
      inputFileDir := p.inputFileDir;
      outputFailure := p.flags.outputFailure;
      outputSuccess := p.flags.outputSuccess;
      allOutput := p.flags.allOutput;
      allRelations := p.flags.allRelations;
      noSuccess := p.flags.noSuccess;
    }

    /** The flag resolution of parseCommandLine: the flags become their
        resolved form and the string options stay as parsed. */
    method Resolve()
      modifies this
      ensures Current() == old(Current()).(flags := Resolved(old(CurrentFlags())))
    {
      if allOutput {
        outputAttributes := true;
        outputContent := true;
        outputSuccess := true;
        outputFailure := true;
      }
      if allRelations {
        outputSuccess := true;
        outputFailure := true;
      }
      if noSuccess {
        outputSuccess := false;
      }
    }
  }
}
