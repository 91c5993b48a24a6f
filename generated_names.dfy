/** Names of the files the generator writes (internal/generator/main.go) and
    the suffix test the artefact cleanup uses to find them again. */
module GeneratedNames {

  const OutDir: string := "scad"
  const OutExtension: string := ".scad"
  const RenderExtension: string := ".stl"
  const OutConfigExtension: string := ".config"
  const OutRightExtension: string := ".right"
  const OutLeftExtension: string := ".left"
  const GeneratedExtension: string := ".g"

  predicate HasPrefix(s: string, prefix: string) {
    |prefix| <= |s| && s[..|prefix|] == prefix
  }

  /** Go's `strings.HasSuffix`. */
  predicate HasSuffix(s: string, suffix: string) {
    |suffix| <= |s| && s[|s| - |suffix|..] == suffix
  }

  function GeneratedOutExtension(): (e: string)
    ensures e == ".g.scad"
  {
    GeneratedExtension + OutExtension
  }

  function GeneratedRenderExtension(): (e: string)
    ensures e == ".g.stl"
  {
    GeneratedExtension + RenderExtension
  }

  /** The name of the configuration output file. */
  function GeneratedOutConfigFilename(configName: string): (name: string)
    ensures HasPrefix(name, configName) && HasSuffix(name, GeneratedOutExtension())
    ensures name == configName + ".config.g.scad"
  {
    configName + OutConfigExtension + GeneratedOutExtension()
  }

  /** The name of the left-hand output file, as `generateLeftFile` builds it. */
  function LeftOutFilename(configName: string): (name: string)
    ensures HasPrefix(name, configName) && HasSuffix(name, GeneratedOutExtension())
    ensures name == configName + ".left.g.scad"
  {
    configName + OutLeftExtension + GeneratedOutExtension()
  }

  /** The name of the right-hand output file, as `generateRightFile` builds it. */
  function RightOutFilename(configName: string): (name: string)
    ensures HasPrefix(name, configName) && HasSuffix(name, GeneratedOutExtension())
    ensures name == configName + ".right.g.scad"
  {
    configName + OutRightExtension + GeneratedOutExtension()
  }

  /** The test `clear-artefacts` applies to each file name in the output
      directory before deleting it. */
  predicate RemovedByCleanup(fileName: string): (removed: bool)
    ensures removed <==> 7 <= |fileName| && fileName[|fileName| - 7..] == ".g.scad"
  {
    HasSuffix(fileName, GeneratedOutExtension())
  }

  /** A name `n + tag + ".g.scad"` starts with `n` and ends with the
      generated extension. */
  lemma TaggedName(n: string, tag: string)
    ensures HasPrefix(n + tag + GeneratedOutExtension(), n)
    ensures HasSuffix(n + tag + GeneratedOutExtension(), GeneratedOutExtension())
  {
  }

  lemma ConfigFilenameShape(n: string)
    ensures HasPrefix(GeneratedOutConfigFilename(n), n)
    ensures HasSuffix(GeneratedOutConfigFilename(n), GeneratedOutExtension())
    ensures GeneratedOutConfigFilename(n) == n + ".config.g.scad"
  {
  }

  /** The name of every file `Generate` writes passes the cleanup's suffix
      test. */
  lemma CleanupRemovesEveryOutput(n: string)
    ensures RemovedByCleanup(GeneratedOutConfigFilename(n))
    ensures RemovedByCleanup(LeftOutFilename(n))
    ensures RemovedByCleanup(RightOutFilename(n))
  {
  }

  /** Rendered models are not mistaken for generated sources. */
  lemma RenderExtensionNotCleanedAsSource(n: string)
    ensures !RemovedByCleanup(n + GeneratedRenderExtension())
  {
    var s := n + GeneratedRenderExtension();
    assert s[|s| - 1] == 'l';
  }

  /** For one configuration the three outputs never overwrite each other. */
  lemma OutputNamesDistinct(n: string)
    ensures GeneratedOutConfigFilename(n) != LeftOutFilename(n)
    ensures GeneratedOutConfigFilename(n) != RightOutFilename(n)
    ensures LeftOutFilename(n) != RightOutFilename(n)
  {
  }

  /** Two configurations never share a config output file. */
  lemma ConfigFilenameInjective(n1: string, n2: string)
    requires GeneratedOutConfigFilename(n1) == GeneratedOutConfigFilename(n2)
    ensures n1 == n2
  {
    var s := GeneratedOutConfigFilename(n1);
    var k := |OutConfigExtension + GeneratedOutExtension()|;
    assert |n1| == |s| - k == |n2|;
    assert n1 == s[..|n1|] == n2;
  }
}
