/** One run of nifxml_niflib.py: scan the command line, then emit the
    compound files, obj_defines.h, obj_factories.cpp, the SConstruct
    `objfiles` list and, with `-b`, the block skeletons, in that order. */
module Driver {
  import opened Schema
  import opened Args
  import opened Compounds
  import opened CompoundProperties
  import opened DefineTable
  import opened Factories
  import opened BuildList
  import opened Bootstrap
  import opened BootstrapProperties

  /** Everything a run writes. `objFiles` holds the fragments of the
      SConstruct file that depend on the type tables. */
  datatype Run = Run(
    rootDir: string,
    bootstrap: bool,
    compounds: seq<CompoundOutput>,
    objDefines: GeneratedFile,
    factories: GeneratedFile,
    objFiles: seq<string>,
    skeletons: seq<Skeleton>)

  /** What a run writes, given its command line and the type tables. */
  function RunOf(argv: seq<string>, cs: seq<Compound>, bs: seq<Block>, comment: string -> seq<string>): Run
  {
    var root := RootDirOf(argv);
    Run(root, BootstrapRequested(argv),
        CompoundOutputs(root, cs, comment),
        GeneratedFile(ObjDefinesPath(root), ObjDefines(bs)),
        GeneratedFile(FactoryPath(root), FactoryFile(bs)),
        ObjFilesWrites(cs, bs),
        if BootstrapRequested(argv) then Skeletons(root, bs, comment) else [])
  }

  /** The whole script (lines 18-395). */
  method Generate(argv: seq<string>, cs: seq<Compound>, bs: seq<Block>, comment: string -> seq<string>)
    returns (run: Run)
    ensures run == RunOf(argv, cs, bs, comment)
  {
    var root, bootstrap := ScanArgs(argv);
    var compounds := GenerateCompounds(root, cs, comment);
    var objDefines := GenerateObjDefines(root, bs);
    var factories := GenerateFactories(root, bs);
    var objFiles := WriteObjFiles(cs, bs);
    var skeletons: seq<Skeleton> := [];
    if bootstrap {
      skeletons := GenerateSkeletons(root, bs, comment);
    }
    run := Run(root, bootstrap, compounds, objDefines, factories, objFiles, skeletons);
  }

  /** Line 299: the skeletons are written only with `-b`, and then one pair
      per block. */
  lemma SkeletonsOnlyWhenBootstrap(argv: seq<string>, cs: seq<Compound>, bs: seq<Block>, comment: string -> seq<string>)
    ensures var run := RunOf(argv, cs, bs, comment);
      (run.skeletons != [] <==> BootstrapRequested(argv) && bs != []) &&
      (BootstrapRequested(argv) ==> |run.skeletons| == |bs|)
  {
    SkeletonsPerBlock(RootDirOf(argv), bs, comment);
  }
}
