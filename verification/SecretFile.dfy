/** The compare-and-swap of the gateway secret file, seen through generations. */
module SecretFile {
  import opened Tables

  const MAX_GENERATION: nat := 2_147_483_647
  const MAX_PROFILES: nat := 256

  predicate MayInstall(file: map<string, nat>, name: string, generation: nat, expected: Option<nat>) {
    && (match expected
        case None => name !in file && generation == 1
        case Some(e) => name in file && file[name] == e && e != MAX_GENERATION && generation == e + 1)
    && (name in file || |file| < MAX_PROFILES)
  }

  function InstallGeneration(file: map<string, nat>, name: string, generation: nat, expected: Option<nat>)
    : Option<map<string, nat>>
  {
    if MayInstall(file, name, generation, expected) then Some(file[name := generation]) else None
  }

  function GenerationOf(file: map<string, nat>, name: string): nat {
    if name in file then file[name] else 0
  }
}
