/** The switch-module repository (internal/generator/switch_repo.go): a
    store of footprint definitions keyed by name, its guarded registration,
    the tolerant registration loop that fills it at start-up, and the
    specialisation of a module by extra-argument overrides. */
module SwitchRepo {
  import opened Errors
  import opened Config
  import GeneratedNames

  const SwitchModulesDir: string := "modules/switches"

  /** Where `AddModule` looks for a module's footprint file. */
  function ModulePath(filename: string): (path: string)
    ensures path == "scad/modules/switches/" + filename
  {
    GeneratedNames.OutDir + "/" + SwitchModulesDir + "/" + filename
  }

  /** A module the registration checks accept, given the set of paths for
      which the file-system reports "does not exist". */
  predicate Registrable(switchModule: SwitchModuleDefinition, statNotExist: set<string>) {
    && switchModule.filename != ""
    && switchModule.moduleName != ""
    && ModulePath(switchModule.filename) !in statNotExist
  }

  /** True when `name` is bound to a module that is not nil. */
  predicate Occupied(modules: map<string, Option<SwitchModuleDefinition>>, name: string) {
    name in modules && modules[name].Some?
  }

  class SwitchRepository {
    /** A nil entry (`None`) counts as absent for registration but not for
        lookup, as in the Go map of `*SwitchModuleDefinition`. */
    var modules: map<string, Option<SwitchModuleDefinition>>

    constructor ()
      ensures modules == map[]
    {
      modules := map[];
    }

    /** Lookup; a function, so it cannot change the repository. */
    function GetModule(name: string): (r: Result<Option<SwitchModuleDefinition>>)
      reads this
      ensures r.Ok? <==> name in modules
      ensures r.Ok? ==> r.value == modules[name]
      ensures r.Err? ==> r.error == ModuleNotFound(name)
    {
      if name in modules then Ok(modules[name]) else Err(ModuleNotFound(name))
    }

    /** Registration: the checks run in the order duplicate, well-formedness,
        file existence, and the first that fails decides the error. */
    method AddModule(name: string, switchModule: SwitchModuleDefinition, statNotExist: set<string>)
      returns (err: Outcome)
      modifies this
      ensures err.Pass? <==> !Occupied(old(modules), name) && Registrable(switchModule, statNotExist)
      ensures err.Fail? ==> modules == old(modules)
      ensures err.Fail? ==>
                err.error == (if Occupied(old(modules), name) then ModuleExists(name)
                              else if switchModule.filename == "" || switchModule.moduleName == "" then InvalidModule(name)
                              else ModuleFileNotFound(ModulePath(switchModule.filename), name))
      ensures err.Pass? ==> modules == old(modules)[name := Some(switchModule)]
      ensures err.Pass? ==> GetModule(name) == Ok(Some(switchModule))
      ensures forall n :: n != name ==> GetModule(n) == old(GetModule(n))
    {
      if name in modules && modules[name] != None {
        return Fail(ModuleExists(name));
      }
      if switchModule.filename == "" || switchModule.moduleName == "" {
        return Fail(InvalidModule(name));
      }
      var path := ModulePath(switchModule.filename);
      if path in statNotExist {
        return Fail(ModuleFileNotFound(path, name));
      }
      modules := modules[name := Some(switchModule)];
      err := Pass;
    }
  }

  /** The registration loop of `loadSwitchRepository`: every loaded module is
      offered to a fresh repository, a refusal is skipped rather than fatal,
      and the result holds exactly the modules that were accepted. */
  method LoadSwitchRepository(loaded: map<string, SwitchModuleDefinition>, statNotExist: set<string>)
    returns (repo: SwitchRepository)
    ensures fresh(repo)
    ensures repo.modules ==
      map name | name in loaded && Registrable(loaded[name], statNotExist) :: Some(loaded[name])
  {
    repo := new SwitchRepository();
    var pending := loaded.Keys;
    while pending != {}
      invariant pending <= loaded.Keys
      invariant repo.modules ==
        map name | name in loaded.Keys - pending && Registrable(loaded[name], statNotExist) :: Some(loaded[name])
      decreases pending
    {
      var name :| name in pending;
      var _ := repo.AddModule(name, loaded[name], statNotExist);
      pending := pending - {name};
    }
  }

  /** The specialised module: the base with each overridden extra argument
      replaced. */
  function Specialize(base: SwitchModuleDefinition, extraArgs: map<string, ArgValue>): (m: SwitchModuleDefinition)
    ensures m.filename == base.filename && m.moduleName == base.moduleName
    ensures m.minKeycapSize == base.minKeycapSize
    ensures m.extraArgs.Keys == base.extraArgs.Keys + extraArgs.Keys
    ensures forall key :: key in extraArgs ==> m.extraArgs[key] == extraArgs[key]
    ensures forall key :: key in base.extraArgs && key !in extraArgs ==> m.extraArgs[key] == base.extraArgs[key]
  {
    base.(extraArgs := base.extraArgs + extraArgs)
  }

  /** Builds a new module from `base`, refusing any override key that the
      base does not declare. */
  method OverrideModule(base: SwitchModuleDefinition, extraArgs: map<string, ArgValue>)
    returns (r: Result<SwitchModuleDefinition>)
    ensures r.Ok? <==> extraArgs.Keys <= base.extraArgs.Keys
    ensures r.Ok? ==> r.value == Specialize(base, extraArgs)
    ensures r.Err? ==> r.error.ExtraArgNotFound? && r.error.key in extraArgs && r.error.key !in base.extraArgs
  {
    var newArgs: map<string, ArgValue> := map[];
    var pending := extraArgs.Keys;
    while pending != {}
      invariant pending <= extraArgs.Keys
      invariant forall key :: key in extraArgs && key !in pending ==> key in base.extraArgs
      invariant newArgs == map key | key in extraArgs && key !in pending :: extraArgs[key]
      decreases pending
    {
      var key :| key in pending;
      if key !in base.extraArgs {
        return Err(ExtraArgNotFound(key));
      }
      newArgs := newArgs[key := extraArgs[key]];
      pending := pending - {key};
    }
    pending := base.extraArgs.Keys;
    while pending != {}
      invariant pending <= base.extraArgs.Keys
      invariant newArgs.Keys == extraArgs.Keys + (base.extraArgs.Keys - pending)
      invariant forall key :: key in extraArgs ==> newArgs[key] == extraArgs[key]
      invariant forall key :: key in base.extraArgs && key !in pending && key !in extraArgs ==>
        newArgs[key] == base.extraArgs[key]
      decreases pending
    {
      var key :| key in pending;
      if key !in newArgs {
        newArgs := newArgs[key := base.extraArgs[key]];
      }
      pending := pending - {key};
    }
    r := Ok(SwitchModuleDefinition(base.filename, base.moduleName, base.minKeycapSize, newArgs));
  }

  /** A successful specialisation declares exactly the base's extra
      arguments. */
  lemma SpecializeKeepsKeys(base: SwitchModuleDefinition, extraArgs: map<string, ArgValue>)
    requires extraArgs.Keys <= base.extraArgs.Keys
    ensures Specialize(base, extraArgs).extraArgs.Keys == base.extraArgs.Keys
  {
  }

  /** Without overrides the specialisation is the base itself. */
  lemma SpecializeNothing(base: SwitchModuleDefinition)
    ensures Specialize(base, map[]) == base
  {
  }

  /** Applying the same overrides twice is the same as applying them once. */
  lemma SpecializeIdempotent(base: SwitchModuleDefinition, extraArgs: map<string, ArgValue>)
    ensures Specialize(Specialize(base, extraArgs), extraArgs) == Specialize(base, extraArgs)
  {
  }
}
